/** What device normalisation guarantees (scripts/routerkit_devices.py:305-481). */
module DeviceTheory {
  import opened Wrappers
  import opened Ordering
  import opened Devices
  import Mac

  // ---- Every record in exactly one device ----

  /** The groups of the sorted keys partition the records: each record is in the group of exactly one key, as often as
      it was given. */
  lemma {:induction false} RecordsArePartitioned(records: seq<Record>, r: Record)
    requires r in records
    ensures var sorted, keys := Sort(RecordLeq, records), SortedKeys(records);
            exists k :: 0 <= k < |keys| && multiset(Group(sorted, keys[k]))[r] == multiset(records)[r]
                        && forall l :: 0 <= l < |keys| && l != k ==> r !in Group(sorted, keys[l])
  {
    var sorted, keys := Sort(RecordLeq, records), SortedKeys(records);
    SortedKeysFacts(records);
    SortPermutes(RecordLeq, records);
    var key := GroupKey(r);
    assert key in keys;
    var k :| 0 <= k < |keys| && keys[k] == key;
    GroupMembers(sorted, key);
    forall l | 0 <= l < |keys| && l != k ensures r !in Group(sorted, keys[l]) {
      GroupMembers(sorted, keys[l]);
      assert keys[l] != keys[k];
    }
  }

  // ---- Devices by position ----

  lemma {:induction false} DeviceAt(
    records: seq<Record>, sorted: seq<Record>, keys: seq<string>, naming: Naming, k: nat)
    requires (forall key :: key in keys ==> Group(sorted, key) != []) && k < |keys|
    ensures |DevicesFor(records, sorted, keys, naming)| == |keys|
    ensures keys[k] in keys
    ensures DevicesFor(records, sorted, keys, naming)[k] == DeviceFor(records, Group(sorted, keys[k]), naming)
  {
    var front := keys[..|keys| - 1];
    LastDevice(records, sorted, keys, naming);
    DevicesCount(records, sorted, front, naming);
    if k < |front| {
      DeviceAt(records, sorted, front, naming, k);
      assert front[k] == keys[k];
    }
  }

  lemma {:induction false} LastDevice(records: seq<Record>, sorted: seq<Record>, keys: seq<string>, naming: Naming)
    requires (forall key :: key in keys ==> Group(sorted, key) != []) && keys != []
    ensures forall key :: key in keys[..|keys| - 1] ==> key in keys
    ensures DevicesFor(records, sorted, keys, naming) ==
            DevicesFor(records, sorted, keys[..|keys| - 1], naming)
            + [DeviceFor(records, Group(sorted, keys[|keys| - 1]), naming)]
  {
  }

  lemma {:induction false} DevicesCount(records: seq<Record>, sorted: seq<Record>, keys: seq<string>, naming: Naming)
    requires forall key :: key in keys ==> Group(sorted, key) != []
    ensures |DevicesFor(records, sorted, keys, naming)| == |keys|
  {
    if keys != [] {
      assert forall key :: key in keys[..|keys| - 1] ==> key in keys;
      DevicesCount(records, sorted, keys[..|keys| - 1], naming);
    }
  }

  /** The devices before their labels are compared. */
  function Drafts(records: seq<Record>, naming: Naming): seq<Device> {
    SortedKeysFacts(records);
    DevicesFor(records, Sort(RecordLeq, records), SortedKeys(records), naming)
  }

  function KeyGroup(records: seq<Record>, k: nat): seq<Record>
    requires k < |SortedKeys(records)|
  {
    Group(Sort(RecordLeq, records), SortedKeys(records)[k])
  }

  lemma {:induction false} DraftAt(records: seq<Record>, naming: Naming, k: nat)
    requires k < |SortedKeys(records)|
    ensures |Drafts(records, naming)| == |SortedKeys(records)| && KeyGroup(records, k) != []
    ensures Drafts(records, naming)[k] == DeviceFor(records, KeyGroup(records, k), naming)
  {
    SortedKeysFacts(records);
    DeviceAt(records, Sort(RecordLeq, records), SortedKeys(records), naming, k);
  }

  lemma {:induction false} DraftCount(records: seq<Record>, naming: Naming)
    ensures |Drafts(records, naming)| == |SortedKeys(records)|
  {
    SortedKeysFacts(records);
    DevicesCount(records, Sort(RecordLeq, records), SortedKeys(records), naming);
  }

  // ---- Addresses ----

  function DeviceAddresses(devices: seq<Device>): set<string> {
    set d, a | d in devices && a in d.addresses :: a
  }

  lemma {:induction false} GroupHolds(records: seq<Record>, k: nat, r: Record)
    requires k < |SortedKeys(records)|
    ensures r in KeyGroup(records, k) <==> r in records && GroupKey(r) == SortedKeys(records)[k]
  {
    var sorted := Sort(RecordLeq, records);
    SortPermutes(RecordLeq, records);
    SameMembers(sorted, records);
    GroupMembers(sorted, SortedKeys(records)[k]);
  }

  lemma {:induction false} KeyPosition(records: seq<Record>, r: Record) returns (k: nat)
    requires r in records
    ensures k < |SortedKeys(records)| && SortedKeys(records)[k] == GroupKey(r)
  {
    SortedKeysFacts(records);
    assert GroupKey(r) in SortedKeys(records);
    var n :| 0 <= n < |SortedKeys(records)| && SortedKeys(records)[n] == GroupKey(r);
    k := n;
  }

  lemma {:induction false} AddressComesFromRecord(records: seq<Record>, naming: Naming, a: string)
    requires a in DeviceAddresses(Drafts(records, naming))
    ensures a in AllAddresses(records)
  {
    var drafts := Drafts(records, naming);
    DraftCount(records, naming);
    var d :| d in drafts && a in d.addresses;
    var k :| 0 <= k < |drafts| && drafts[k] == d;
    DraftAt(records, naming, k);
    var group := KeyGroup(records, k);
    assert a in AllAddresses(group);
    var r :| r in group && a in r.addresses;
    GroupHolds(records, k, r);
  }

  lemma {:induction false} AddressReachesDevice(records: seq<Record>, naming: Naming, r: Record, a: string)
    requires r in records && a in r.addresses
    ensures a in DeviceAddresses(Drafts(records, naming))
  {
    var drafts := Drafts(records, naming);
    var k := KeyPosition(records, r);
    DraftAt(records, naming, k);
    GroupHolds(records, k, r);
    assert a in AllAddresses(KeyGroup(records, k));
    assert drafts[k] in drafts;
  }

  lemma {:induction false} AddressesKept(records: seq<Record>, naming: Naming, a: string)
    ensures a in DeviceAddresses(Drafts(records, naming)) <==> a in AllAddresses(records)
  {
    if a in DeviceAddresses(Drafts(records, naming)) {
      AddressComesFromRecord(records, naming, a);
    }
    if a in AllAddresses(records) {
      var r :| r in records && a in r.addresses;
      AddressReachesDevice(records, naming, r, a);
    }
  }

  lemma {:induction false} DisambiguationKeepsAddresses(devices: seq<Device>)
    ensures DeviceAddresses(Disambiguated(devices)) == DeviceAddresses(devices)
  {
    var r := Disambiguated(devices);
    forall a ensures a in DeviceAddresses(r) <==> a in DeviceAddresses(devices) {
      if a in DeviceAddresses(r) {
        var d :| d in r && a in d.addresses;
        var k :| 0 <= k < |r| && r[k] == d;
        assert devices[k] in devices && a in devices[k].addresses;
      }
      if a in DeviceAddresses(devices) {
        var d :| d in devices && a in d.addresses;
        var k :| 0 <= k < |devices| && devices[k] == d;
        assert r[k] in r && a in r[k].addresses;
      }
    }
  }

  /** No address is lost and none is made up. */
  lemma {:induction false} AddressesAreConserved(records: seq<Record>, naming: Naming)
    requires Normalized(records, naming).Ok?
    ensures DeviceAddresses(Normalized(records, naming).value) == AllAddresses(records)
  {
    var drafts := Drafts(records, naming);
    SortPermutes(DeviceLeq, Disambiguated(drafts));
    SameMembers(Sort(DeviceLeq, Disambiguated(drafts)), Disambiguated(drafts));
    DisambiguationKeepsAddresses(drafts);
    forall a ensures a in DeviceAddresses(drafts) <==> a in AllAddresses(records) {
      AddressesKept(records, naming, a);
    }
  }

  // ---- Selectable devices ----

  /** What the parser guarantees about an identifier of type mac. */
  predicate Parsed(records: seq<Record>) {
    forall r :: r in records && r.stableId.Some? && r.idType.MacId? ==> Mac.NormalizeMac(r.stableId.value) == r.stableId
  }

  lemma {:induction false} TrustedGroup(group: seq<Record>, key: string)
    requires group != [] && (forall r :: r in group ==> GroupKey(r) == key) && TrustedIdentities(group) != {}
    ensures group[0].stableId.Some? && group[0].idType.MacId? && key == "stable|mac:" + group[0].stableId.value
  {
    var t :| t in TrustedIdentities(group);
    var r :| r in group && AssignmentIdentity(r) == Some(t);
    SameKeySameIdentity(r, group[0]);
    MacIdentityShows(r, r.stableId.value);
    MacIdentityShows(group[0], r.stableId.value);
    assert "stable|" + ("mac:" + r.stableId.value) == "stable|mac:" + r.stableId.value;
  }

  /** A selectable draft carries the MAC its whole group is about. */
  lemma {:induction false} SelectableHasMac(records: seq<Record>, naming: Naming, k: nat)
    requires k < |SortedKeys(records)| && KeyGroup(records, k) != []
    requires DeviceFor(records, KeyGroup(records, k), naming).selectable
    ensures var d := DeviceFor(records, KeyGroup(records, k), naming);
            d.stableId.Some? && d.idType.MacId? && SortedKeys(records)[k] == "stable|mac:" + d.stableId.value
  {
    var group, key := KeyGroup(records, k), SortedKeys(records)[k];
    forall r | r in group ensures GroupKey(r) == key {
      GroupHolds(records, k, r);
    }
    TrustedGroup(group, key);
  }

  /** Two devices a person may choose: their MACs and what is shown of them are different. */
  predicate ToldApart(d: Device, e: Device) {
    d.selectable && e.selectable ==> d.stableId != e.stableId && ShownAs(d) != ShownAs(e)
  }

  ghost predicate Pairwise(devices: seq<Device>) {
    forall i, j :: 0 <= i < j < |devices| ==> ToldApart(devices[i], devices[j])
  }

  lemma {:induction false} TwoOccurrences(devices: seq<Device>, i: nat, j: nat)
    requires i < j < |devices| && ShownAs(devices[i]) == ShownAs(devices[j])
    ensures Occurrences(devices, ShownAs(devices[i])) > 1
  {
    var front := devices[..|devices| - 1];
    if j < |devices| - 1 {
      TwoOccurrences(front, i, j);
    } else {
      OneOccurrence(front, i);
    }
  }

  lemma {:induction false} OneOccurrence(devices: seq<Device>, i: nat)
    requires i < |devices|
    ensures Occurrences(devices, ShownAs(devices[i])) >= 1
  {
    if i < |devices| - 1 {
      OneOccurrence(devices[..|devices| - 1], i);
    }
  }

  lemma {:induction false} DraftsToldApart(records: seq<Record>, naming: Naming, i: nat, j: nat)
    requires i < j < |Drafts(records, naming)|
    ensures ToldApart(Disambiguated(Drafts(records, naming))[i], Disambiguated(Drafts(records, naming))[j])
  {
    var drafts, keys := Drafts(records, naming), SortedKeys(records);
    var d, e := Disambiguated(drafts)[i], Disambiguated(drafts)[j];
    DraftCount(records, naming);
    if d.selectable && e.selectable {
      DraftAt(records, naming, i);
      DraftAt(records, naming, j);
      SelectableHasMac(records, naming, i);
      SelectableHasMac(records, naming, j);
      SortedKeysFacts(records);
      assert keys[i] != keys[j];
      if ShownAs(d) == ShownAs(e) {
        TwoOccurrences(drafts, i, j);
      }
    }
  }

  lemma {:induction false} ToldApartIsSymmetric(d: Device, e: Device)
    ensures ToldApart(d, e) <==> ToldApart(e, d)
  {
  }

  lemma {:induction false} TwoPositions(a: seq<Device>, d: Device) returns (i: nat, j: nat)
    requires multiset(a)[d] >= 2
    ensures i < j < |a| && a[i] == d && a[j] == d
  {
    var front, last := a[..|a| - 1], a[|a| - 1];
    assert a == front + [last];
    if last == d {
      assert d in multiset(front);
      var k :| 0 <= k < |front| && front[k] == d;
      i, j := k, |a| - 1;
    } else {
      i, j := TwoPositions(front, d);
    }
  }

  /** Being told apart pairwise does not depend on the arrangement. */
  lemma {:induction false} PairwisePermutes(a: seq<Device>, b: seq<Device>, i: nat, j: nat)
    requires Pairwise(a) && multiset(a) == multiset(b) && i < j < |b|
    ensures ToldApart(b[i], b[j])
  {
    SameMembers(a, b);
    if b[i] == b[j] {
      assert b == b[..j] + b[j..];
      assert b[..j][i] == b[i] && b[j..][0] == b[j];
      assert multiset(b)[b[i]] == multiset(b[..j])[b[i]] + multiset(b[j..])[b[i]];
      assert b[i] in multiset(b[..j]) && b[i] in multiset(b[j..]);
      var k, l := TwoPositions(a, b[i]);
    } else {
      assert b[i] in a && b[j] in a;
      var k :| 0 <= k < |a| && a[k] == b[i];
      var l :| 0 <= l < |a| && a[l] == b[j];
      ToldApartIsSymmetric(b[i], b[j]);
    }
  }

  lemma {:induction false} DisambiguatedSelectable(devices: seq<Device>, d: Device)
    requires d in Disambiguated(devices) && d.selectable
    ensures d in devices
  {
    var r := Disambiguated(devices);
    var k :| 0 <= k < |r| && r[k] == d;
    assert devices[k] == d;
  }

  lemma {:induction false} SelectableDraftIsTrusted(records: seq<Record>, naming: Naming, d: Device)
    requires Parsed(records) && d in Drafts(records, naming) && d.selectable
    ensures d.stableId.Some? && d.idType.MacId? && Mac.NormalizeMac(d.stableId.value) == d.stableId
  {
    DraftCount(records, naming);
    var drafts := Drafts(records, naming);
    var k :| 0 <= k < |drafts| && drafts[k] == d;
    DraftAt(records, naming, k);
    SelectableHasMac(records, naming, k);
    var r := KeyGroup(records, k)[0];
    assert r in KeyGroup(records, k);
    GroupHolds(records, k, r);
  }

  /** Every selectable device carries a normalised trusted unicast MAC, and any two of them differ both in that MAC and
      in what a person is shown. */
  lemma {:induction false} SelectableDevicesAreDistinct(records: seq<Record>, naming: Naming, i: nat)
    requires Parsed(records) && Normalized(records, naming).Ok? && i < |Normalized(records, naming).value|
    ensures var ds := Normalized(records, naming).value;
            && (ds[i].selectable ==> ds[i].stableId.Some? && Mac.NormalizeMac(ds[i].stableId.value) == ds[i].stableId)
            && forall j :: i < j < |ds| ==> ToldApart(ds[i], ds[j])
  {
    var drafts := Drafts(records, naming);
    var before, ds := Disambiguated(drafts), Normalized(records, naming).value;
    SortPermutes(DeviceLeq, before);
    SameMembers(ds, before);
    forall k, l | 0 <= k < l < |before| ensures ToldApart(before[k], before[l]) {
      DraftsToldApart(records, naming, k, l);
    }
    forall j | i < j < |ds| ensures ToldApart(ds[i], ds[j]) {
      PairwisePermutes(before, ds, i, j);
    }
    if ds[i].selectable {
      assert ds[i] in ds;
      DisambiguatedSelectable(drafts, ds[i]);
      SelectableDraftIsTrusted(records, naming, ds[i]);
    }
  }
}
