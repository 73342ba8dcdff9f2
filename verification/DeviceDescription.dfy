/** What each normalised device is, in terms of the records it stands for (scripts/routerkit_devices.py:305-481). */
module DeviceDescription {
  import opened Wrappers
  import opened Ordering
  import opened Devices
  import opened DeviceTheory
  import opened DeviceOrder

  /** The records of one device. */
  predicate Kin(records: seq<Record>, key: string, r: Record) {
    r in records && GroupKey(r) == key
  }

  /** Some record of the device shares its vendor id with a record of another identity. */
  ghost predicate Disputed(records: seq<Record>, key: string) {
    exists r, s :: Kin(records, key, r) && s in records && r.vendorId.Some? && s.vendorId == r.vendorId
                   && Identity(s) != Identity(r)
  }

  ghost predicate HasMac(records: seq<Record>, key: string) {
    exists r :: Kin(records, key, r) && r.idType.MacId? && r.stableId.Some?
  }

  ghost predicate HasIdentity(records: seq<Record>, key: string) {
    exists r :: Kin(records, key, r) && (r.stableId.Some? || r.vendorId.Some?)
  }

  /** The value of the first record, in the order of the sort, that has one. */
  ghost predicate Taken<T>(records: seq<Record>, key: string, f: Record -> Option<T>, value: Option<T>) {
    if value.None? then forall r :: Kin(records, key, r) ==> f(r).None?
    else exists r :: Kin(records, key, r) && f(r) == value && Leads(records, f, r)
  }

  /** Selectable with a MAC that nobody disputes, and otherwise with the reason why not. */
  ghost predicate SelectionDescribed(records: seq<Record>, key: string, d: Device) {
    && (d.conflict <==> Disputed(records, key))
    && (d.selectable <==> HasMac(records, key) && !Disputed(records, key))
    && d.reason == (if !HasIdentity(records, key) then Some(NoIdentity)
                    else if !HasMac(records, key) then Some(NoMac)
                    else if Disputed(records, key) then Some(ConflictingIdentity) else None)
  }

  ghost predicate StateDescribed(records: seq<Record>, key: string, d: Device) {
    && (d.online.Online? <==> exists r :: Kin(records, key, r) && r.online.Online?)
    && (d.online.Offline? <==> forall r :: Kin(records, key, r) ==> r.online.Offline?)
    && (d.link.Ethernet? <==>
          (exists r :: Kin(records, key, r) && r.link.Ethernet?)
          && forall r :: Kin(records, key, r) ==> !r.link.WifiLink?)
    && (d.link.WifiLink? <==>
          (exists r :: Kin(records, key, r) && r.link.WifiLink?)
          && forall r :: Kin(records, key, r) ==> !r.link.Ethernet?)
    && (d.stale <==> forall r :: Kin(records, key, r) ==> r.stale)
  }

  /** Addresses and sources of all its records, and the fields of the first that has them. */
  ghost predicate FieldsDescribed(records: seq<Record>, naming: Naming, key: string, d: Device) {
    && (forall a :: a in d.addresses <==> exists r :: Kin(records, key, r) && a in r.addresses)
    && (forall s :: s in d.sourceKinds <==> exists r :: Kin(records, key, r) && r.sourceKind == s)
    && (forall r :: Kin(records, key, r) && Identity(r).Some? ==> d.recordId == naming.digest(Identity(r).value))
    && Taken(records, key, HeadOf, Some((d.stableId, d.idType)))
    && (Taken(records, key, NameOf, Some(d.name))
        || (Taken(records, key, NameOf, None) && d.name == naming.unnamed(d.recordId)))
    && Taken(records, key, BandOf, d.band) && Taken(records, key, InterfaceOf, d.interface)
    && Taken(records, key, PolicyOf, d.policy)
  }

  ghost predicate Described(records: seq<Record>, naming: Naming, key: string, d: Device) {
    && SelectionDescribed(records, key, d) && StateDescribed(records, key, d)
    && FieldsDescribed(records, naming, key, d)
  }

  // ---- Groups ----

  ghost predicate IsGroup(records: seq<Record>, key: string, group: seq<Record>) {
    group != [] && Sorted(RecordLeq, group) && forall r :: r in group <==> Kin(records, key, r)
  }

  lemma {:induction false} KeyGroupIsGroup(records: seq<Record>, naming: Naming, k: nat)
    requires k < |SortedKeys(records)|
    ensures IsGroup(records, SortedKeys(records)[k], KeyGroup(records, k))
  {
    DraftAt(records, naming, k);
    SortedGroup(records, SortedKeys(records)[k]);
  }

  lemma {:induction false} FirstIsTaken<T>(
    records: seq<Record>, key: string, group: seq<Record>, f: Record -> Option<T>)
    requires IsGroup(records, key, group)
    ensures Taken(records, key, f, PickFirst(group, f))
  {
    FirstIsLeast(group, f);
    if PickFirst(group, f).Some? {
      var r :| r in group && f(r) == PickFirst(group, f) && Leads(group, f, r);
      assert Leads(records, f, r);
    }
  }

  lemma {:induction false} DisputeIsConflict(records: seq<Record>, key: string, group: seq<Record>)
    requires IsGroup(records, key, group)
    ensures InConflict(records, group) <==> Disputed(records, key)
  {
    if InConflict(records, group) {
      var r :| r in group && r.vendorId.Some? && ConflictingVendor(records, r.vendorId.value);
      var s, t :| s in records && t in records && s.vendorId == r.vendorId && t.vendorId == r.vendorId
                  && Identity(s) != Identity(t);
      assert Kin(records, key, r);
      assert Identity(s) != Identity(r) || Identity(t) != Identity(r);
    }
    if Disputed(records, key) {
      var r, s :| Kin(records, key, r) && s in records && r.vendorId.Some? && s.vendorId == r.vendorId
                  && Identity(s) != Identity(r);
      assert r in group && ConflictingVendor(records, r.vendorId.value);
    }
  }

  lemma {:induction false} OneTrustedIdentity(records: seq<Record>, key: string, group: seq<Record>)
    requires IsGroup(records, key, group)
    ensures |TrustedIdentities(group)| == 1 <==> HasMac(records, key)
  {
    var trusted := TrustedIdentities(group);
    forall r | r in group && AssignmentIdentity(r).Some? ensures AssignmentIdentity(r) == Identity(group[0]) {
      assert group[0] in group;
      SameKeySameIdentity(r, group[0]);
      assert TypeText(MacId) == "mac";
      assert "mac" + ":" + r.stableId.value == "mac:" + r.stableId.value;
    }
    if HasMac(records, key) {
      var r :| Kin(records, key, r) && r.idType.MacId? && r.stableId.Some?;
      assert r in group && AssignmentIdentity(r).value in trusted;
      assert trusted == {AssignmentIdentity(r).value};
    } else {
      assert trusted == {};
    }
  }

  lemma {:induction false} IdentityIsShared(records: seq<Record>, key: string, group: seq<Record>)
    requires IsGroup(records, key, group)
    ensures Identity(group[0]).Some? <==> HasIdentity(records, key)
  {
    assert Kin(records, key, group[0]);
    forall r | Kin(records, key, r) ensures Identity(r) == Identity(group[0]) {
      SameKeySameIdentity(r, group[0]);
    }
  }

  lemma {:induction false} SelectionIsDescribed(
    records: seq<Record>, naming: Naming, key: string, group: seq<Record>)
    requires IsGroup(records, key, group)
    ensures SelectionDescribed(records, key, DeviceFor(records, group, naming))
  {
    DisputeIsConflict(records, key, group);
    OneTrustedIdentity(records, key, group);
    IdentityIsShared(records, key, group);
  }

  lemma {:induction false} StateIsDescribed(records: seq<Record>, naming: Naming, key: string, group: seq<Record>)
    requires IsGroup(records, key, group)
    ensures StateDescribed(records, key, DeviceFor(records, group, naming))
  {
  }

  lemma {:induction false} HeadIsTaken(records: seq<Record>, key: string, group: seq<Record>)
    requires IsGroup(records, key, group)
    ensures Taken(records, key, HeadOf, Some((group[0].stableId, group[0].idType)))
  {
    FirstIsTaken(records, key, group, HeadOf);
    assert PickFirst(group, HeadOf) == HeadOf(group[0]);
  }

  lemma {:induction false} FieldsAreDescribed(
    records: seq<Record>, naming: Naming, key: string, group: seq<Record>)
    requires IsGroup(records, key, group)
    ensures FieldsDescribed(records, naming, key, DeviceFor(records, group, naming))
  {
    HeadIsTaken(records, key, group);
    forall r | Kin(records, key, r) ensures Identity(r) == Identity(group[0]) {
      assert group[0] in group;
      SameKeySameIdentity(r, group[0]);
    }
    FirstIsTaken(records, key, group, NameOf);
    FirstIsTaken(records, key, group, BandOf);
    FirstIsTaken(records, key, group, InterfaceOf);
    FirstIsTaken(records, key, group, PolicyOf);
  }

  /** Every draft is what its records make it. */
  lemma {:induction false} DraftIsDescribed(records: seq<Record>, naming: Naming, k: nat)
    requires k < |SortedKeys(records)|
    ensures |Drafts(records, naming)| == |SortedKeys(records)|
    ensures Described(records, naming, SortedKeys(records)[k], Drafts(records, naming)[k])
  {
    var key, group := SortedKeys(records)[k], KeyGroup(records, k);
    DraftAt(records, naming, k);
    KeyGroupIsGroup(records, naming, k);
    SelectionIsDescribed(records, naming, key, group);
    StateIsDescribed(records, naming, key, group);
    FieldsAreDescribed(records, naming, key, group);
  }

  // ---- The whole list ----

  /** Another draft looks the same to a person: by lower-case name, addresses and link. */
  predicate HasDouble(drafts: seq<Device>, k: nat)
    requires k < |drafts|
  {
    exists l :: 0 <= l < |drafts| && l != k && drafts[l].name.lower == drafts[k].name.lower
                && drafts[l].addresses == drafts[k].addresses && drafts[l].link == drafts[k].link
  }

  lemma {:induction false} ManyOccurrences(devices: seq<Device>, shown: Shown)
    ensures Occurrences(devices, shown) > 0 <==> exists i :: 0 <= i < |devices| && ShownAs(devices[i]) == shown
    ensures Occurrences(devices, shown) > 1 ==>
              exists i, j :: 0 <= i < j < |devices| && ShownAs(devices[i]) == shown && ShownAs(devices[j]) == shown
  {
    if devices != [] {
      var front, last := devices[..|devices| - 1], |devices| - 1;
      ManyOccurrences(front, shown);
      if Occurrences(devices, shown) > 1 {
        if Occurrences(front, shown) > 1 {
          var i, j :| 0 <= i < j < |front| && ShownAs(front[i]) == shown && ShownAs(front[j]) == shown;
          assert ShownAs(devices[i]) == shown && ShownAs(devices[j]) == shown;
        } else {
          var i :| 0 <= i < |front| && ShownAs(front[i]) == shown;
          assert ShownAs(devices[i]) == shown && ShownAs(devices[last]) == shown;
        }
      }
      if exists i :: 0 <= i < |devices| && ShownAs(devices[i]) == shown {
        var i :| 0 <= i < |devices| && ShownAs(devices[i]) == shown;
        assert i < last ==> ShownAs(front[i]) == shown;
      }
      if Occurrences(front, shown) > 0 {
        var i :| 0 <= i < |front| && ShownAs(front[i]) == shown;
        assert ShownAs(devices[i]) == shown;
      } else if ShownAs(devices[last]) == shown {
        assert ShownAs(devices[last]) == shown;
      }
    }
  }

  lemma {:induction false} DoubleIff(drafts: seq<Device>, k: nat)
    requires k < |drafts|
    ensures Occurrences(drafts, ShownAs(drafts[k])) > 1 <==> HasDouble(drafts, k)
  {
    var shown := ShownAs(drafts[k]);
    if HasDouble(drafts, k) {
      var l :| 0 <= l < |drafts| && l != k && ShownAs(drafts[l]) == shown;
      TwoOccurrences(drafts, if k < l then k else l, if k < l then l else k);
    }
    if Occurrences(drafts, shown) > 1 {
      ManyOccurrences(drafts, shown);
      var i, j :| 0 <= i < j < |drafts| && ShownAs(drafts[i]) == shown && ShownAs(drafts[j]) == shown;
      assert i != k || j != k;
    }
  }

  /** What becomes of draft k: as it is, unless it cannot be told from another one. */
  function Finished(drafts: seq<Device>, k: nat): Device
    requires k < |drafts|
  {
    if HasDouble(drafts, k) then drafts[k].(selectable := false, reason := Some(AmbiguousLabel)) else drafts[k]
  }

  lemma {:induction false} DisambiguatedAt(drafts: seq<Device>, k: nat)
    requires k < |drafts|
    ensures Disambiguated(drafts)[k] == Finished(drafts, k)
  {
    DoubleIff(drafts, k);
  }

  lemma {:induction false} DevicesAreOrdered()
    ensures Total(DeviceLeq) && Transitive(DeviceLeq)
  {
    forall d, e ensures DeviceLeq(d, e) || DeviceLeq(e, d) {
      LexTotal(d.name.folded, e.name.folded);
      LexTotal(d.recordId, e.recordId);
    }
    forall d, e, f | DeviceLeq(d, e) && DeviceLeq(e, f) ensures DeviceLeq(d, f) {
      DeviceOrderIsTransitive(d, e, f);
    }
  }

  lemma {:induction false} DeviceOrderIsTransitive(d: Device, e: Device, f: Device)
    requires DeviceLeq(d, e) && DeviceLeq(e, f)
    ensures DeviceLeq(d, f)
  {
    LexTotal(d.name.folded, e.name.folded);
    LexTotal(e.name.folded, f.name.folded);
    if d.online == e.online == f.online {
      if d.name.folded == e.name.folded == f.name.folded {
        LexTransitive(d.recordId, e.recordId, f.recordId);
      } else {
        LexTransitive(d.name.folded, e.name.folded, f.name.folded);
      }
    }
  }

  /** All addresses of the device a record belongs to. */
  ghost function KinAddresses(records: seq<Record>, key: string): set<string> {
    set r, a | r in records && GroupKey(r) == key && a in r.addresses :: a
  }

  lemma {:induction false} DraftAddresses(records: seq<Record>, naming: Naming, k: nat)
    requires k < |SortedKeys(records)|
    ensures |Drafts(records, naming)| == |SortedKeys(records)|
    ensures Drafts(records, naming)[k].addresses == KinAddresses(records, SortedKeys(records)[k])
  {
    DraftAt(records, naming, k);
    KeyGroupIsGroup(records, naming, k);
    forall r ensures r in KeyGroup(records, k) <==> Kin(records, SortedKeys(records)[k], r) {
    }
  }

  lemma {:induction false} CrowdedIff(records: seq<Record>, naming: Naming)
    ensures (exists d :: d in Drafts(records, naming) && |d.addresses| > MAX_ADDRESSES_PER_DEVICE)
            <==> exists r :: r in records && |KinAddresses(records, GroupKey(r))| > MAX_ADDRESSES_PER_DEVICE
  {
    var drafts, keys := Drafts(records, naming), SortedKeys(records);
    DraftCount(records, naming);
    if d :| d in drafts && |d.addresses| > MAX_ADDRESSES_PER_DEVICE {
      var k :| 0 <= k < |drafts| && drafts[k] == d;
      DraftAddresses(records, naming, k);
      SortedKeysFacts(records);
      assert keys[k] in keys;
      var r :| r in records && GroupKey(r) == keys[k];
      assert |KinAddresses(records, GroupKey(r))| > MAX_ADDRESSES_PER_DEVICE;
    }
    if r :| r in records && |KinAddresses(records, GroupKey(r))| > MAX_ADDRESSES_PER_DEVICE {
      var k := KeyPosition(records, r);
      DraftAddresses(records, naming, k);
      assert drafts[k] in drafts;
    }
  }

  /** Normalisation refuses too many records and, failing that, a device with too many addresses; otherwise it returns
      each draft, finished, in the order of the list. */
  lemma {:induction false} NormalizedDevices(records: seq<Record>, naming: Naming)
    ensures Normalized(records, naming) == Err(TooManyRecords) <==> |records| > 512
    ensures Normalized(records, naming) == Err(TooManyAddresses) <==>
              |records| <= 512 && exists r :: r in records && |KinAddresses(records, GroupKey(r))| > 32
    ensures Normalized(records, naming).Ok? ==>
              var drafts, ds := Drafts(records, naming), Normalized(records, naming).value;
              && Sorted(DeviceLeq, ds)
              && |drafts| == |SortedKeys(records)|
              && multiset(ds) == multiset(seq(|drafts|, k requires 0 <= k < |drafts| => Finished(drafts, k)))
  {
    CrowdedIff(records, naming);
    if Normalized(records, naming).Ok? {
      var drafts := Drafts(records, naming);
      DevicesAreOrdered();
      SortSorts(DeviceLeq, Disambiguated(drafts));
      SortPermutes(DeviceLeq, Disambiguated(drafts));
      DraftCount(records, naming);
      forall k | 0 <= k < |drafts| ensures Disambiguated(drafts)[k] == Finished(drafts, k) {
        DisambiguatedAt(drafts, k);
      }
      assert Disambiguated(drafts) == seq(|drafts|, k requires 0 <= k < |drafts| => Finished(drafts, k));
    }
  }
}
