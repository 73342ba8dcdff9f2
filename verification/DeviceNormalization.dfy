/** Device normalisation and selection as they run (scripts/routerkit_devices.py:370-481, 924-964). */
module DeviceNormalization {
  import opened Wrappers
  import opened Ordering
  import opened Devices
  import opened DeviceTheory

  // ---- Grouping ----

  lemma {:induction false} NewKeyStartsGroup(records: seq<Record>, key: string)
    ensures key !in KeysSeen(records) ==> Group(records, key) == []
  {
    SeenKeys(records);
    GroupMembers(records, key);
    if Group(records, key) != [] {
      var r := Group(records, key)[0];
      assert r in Group(records, key);
    }
  }

  /** Every group built so far is the spec's, and there is one for every key seen. */
  ghost predicate Grouped(grouped: map<string, seq<Record>>, seen: seq<string>, records: seq<Record>) {
    && seen == KeysSeen(records)
    && (forall key :: key in grouped <==> key in seen)
    && (forall key :: key in grouped ==> grouped[key] == Group(records, key))
  }

  lemma {:induction false} GroupedNext(
    grouped: map<string, seq<Record>>, seen: seq<string>, records: seq<Record>, i: nat)
    requires i < |records| && Grouped(grouped, seen, records[..i])
    ensures var key := GroupKey(records[i]);
            var group := if key in grouped then grouped[key] else [];
            Grouped(
              grouped[key := group + [records[i]]], if key in grouped then seen else seen + [key], records[..i + 1])
  {
    var next := records[..i + 1];
    assert next[..|next| - 1] == records[..i] && next[|next| - 1] == records[i];
    NewKeyStartsGroup(records[..i], GroupKey(records[i]));
  }

  method GroupRecords(records: seq<Record>) returns (grouped: map<string, seq<Record>>, seen: seq<string>)
    ensures Grouped(grouped, seen, records)
  {
    grouped, seen := map[], [];
    for i := 0 to |records|
      invariant Grouped(grouped, seen, records[..i])
    {
      GroupedNext(grouped, seen, records, i);
      var key := GroupKey(records[i]);
      if key !in grouped {
        grouped := grouped[key := []];
        seen := seen + [key];
      }
      grouped := grouped[key := grouped[key] + [records[i]]];
    }
    assert records[..|records|] == records;
  }

  // ---- Vendor conflicts ----

  ghost function IdentitiesOf(records: seq<Record>, vendor: string): set<Option<string>> {
    set r | r in records && r.vendorId == Some(vendor) :: Identity(r)
  }

  lemma {:induction false} TwoIdentities(records: seq<Record>, vendor: string)
    ensures |IdentitiesOf(records, vendor)| > 1 <==> ConflictingVendor(records, vendor)
  {
    var ids := IdentitiesOf(records, vendor);
    if ConflictingVendor(records, vendor) {
      var r, s :| r in records && s in records && r.vendorId == Some(vendor) && s.vendorId == Some(vendor)
                  && Identity(r) != Identity(s);
      assert Identity(r) in ids && Identity(s) in ids;
      assert {Identity(s)} <= ids - {Identity(r)};
      assert |ids - {Identity(r)}| >= 1;
    } else if ids != {} {
      var x :| x in ids;
      assert ids == {x};
    }
  }

  method FindConflicts(records: seq<Record>) returns (conflicting: set<string>)
    ensures forall v :: v in conflicting <==> ConflictingVendor(records, v)
  {
    var vendors: map<string, set<Option<string>>> := map[];
    for i := 0 to |records|
      invariant forall v :: v in vendors ==> vendors[v] == IdentitiesOf(records[..i], v)
      invariant forall v :: v !in vendors ==> IdentitiesOf(records[..i], v) == {}
    {
      assert records[..i + 1] == records[..i] + [records[i]];
      IdentitiesGrow(records[..i], records[i]);
      if records[i].vendorId.Some? {
        var v := records[i].vendorId.value;
        var known := if v in vendors then vendors[v] else {};
        vendors := vendors[v := known + {Identity(records[i])}];
      }
    }
    assert records[..|records|] == records;
    conflicting := set v | v in vendors && |vendors[v]| > 1;
    forall v ensures v in conflicting <==> ConflictingVendor(records, v) {
      TwoIdentities(records, v);
    }
  }

  lemma {:induction false} IdentitiesGrow(records: seq<Record>, r: Record)
    ensures forall v :: IdentitiesOf(records + [r], v) ==
                        IdentitiesOf(records, v) + (if r.vendorId == Some(v) then {Identity(r)} else {})
  {
    forall v
      ensures IdentitiesOf(records + [r], v) ==
              IdentitiesOf(records, v) + (if r.vendorId == Some(v) then {Identity(r)} else {})
    {
      var grown := records + [r];
      assert forall s :: s in grown <==> s in records || s == r;
    }
  }

  // ---- Labels ----

  /** The counts so far are exactly the occurrences. */
  ghost predicate Counted(counts: map<Shown, nat>, devices: seq<Device>) {
    forall x :: (if x in counts then counts[x] else 0) == Occurrences(devices, x)
  }

  method CountLabels(devices: seq<Device>) returns (counts: map<Shown, nat>)
    ensures Counted(counts, devices)
  {
    counts := map[];
    for i := 0 to |devices|
      invariant Counted(counts, devices[..i])
    {
      var shown := ShownAs(devices[i]);
      var next := devices[..i + 1];
      assert next[..|next| - 1] == devices[..i];
      counts := counts[shown := (if shown in counts then counts[shown] else 0) + 1];
    }
    assert devices[..|devices|] == devices;
  }

  method Disambiguate(devices: seq<Device>) returns (r: seq<Device>)
    ensures r == Disambiguated(devices)
  {
    var counts := CountLabels(devices);
    r := [];
    for i := 0 to |devices|
      invariant |r| == i && forall k :: 0 <= k < i ==> r[k] == Unambiguous(devices, devices[k])
    {
      var d := devices[i];
      OneOccurrence(devices, i);
      if ShownAs(d) in counts && counts[ShownAs(d)] > 1 {
        r := r + [d.(selectable := false, reason := Some(AmbiguousLabel))];
      } else {
        r := r + [d];
      }
    }
  }

  // ---- Normalisation ----

  lemma {:induction false} DevicesSnoc(
    records: seq<Record>, sorted: seq<Record>, keys: seq<string>, naming: Naming, i: nat)
    requires (forall key :: key in keys ==> Group(sorted, key) != []) && i < |keys|
    ensures (forall key :: key in keys[..i + 1] ==> key in keys) && (forall key :: key in keys[..i] ==> key in keys)
    ensures DevicesFor(records, sorted, keys[..i + 1], naming) ==
            DevicesFor(records, sorted, keys[..i], naming) + [DeviceFor(records, Group(sorted, keys[i]), naming)]
  {
    var next := keys[..i + 1];
    assert next[..|next| - 1] == keys[..i] && next[|next| - 1] == keys[i];
    assert keys[i] in keys;
  }

  method MakeDevice(records: seq<Record>, group: seq<Record>, conflicting: set<string>, naming: Naming)
    returns (device: Device)
    requires group != [] && (forall v :: v in conflicting <==> ConflictingVendor(records, v))
    ensures device == DeviceFor(records, group, naming)
  {
    var conflict := exists s :: s in group && s.vendorId.Some? && s.vendorId.value in conflicting;
    ConflictFound(records, group, conflicting);
    device := DeviceOf(group, conflict, naming);
  }

  lemma {:induction false} ConflictFound(records: seq<Record>, group: seq<Record>, conflicting: set<string>)
    requires forall v :: v in conflicting <==> ConflictingVendor(records, v)
    ensures InConflict(records, group) <==>
            exists s :: s in group && s.vendorId.Some? && s.vendorId.value in conflicting
  {
  }

  /** One device per key, refusing a device with too many addresses. */
  method MakeDevices(
    records: seq<Record>, sorted: seq<Record>, keys: seq<string>, grouped: map<string, seq<Record>>, naming: Naming)
    returns (r: Result<seq<Device>, DeviceError>)
    requires forall key :: key in keys ==> Group(sorted, key) != []
    requires forall key :: key in keys ==> key in grouped && grouped[key] == Group(sorted, key)
    ensures var devices := DevicesFor(records, sorted, keys, naming);
            r == if exists d :: d in devices && |d.addresses| > MAX_ADDRESSES_PER_DEVICE then Err(TooManyAddresses)
                 else Ok(devices)
  {
    var conflicting := FindConflicts(records);
    var devices := [];
    ghost var all := DevicesFor(records, sorted, keys, naming);
    for i := 0 to |keys|
      invariant forall key :: key in keys[..i] ==> key in keys
      invariant devices == DevicesFor(records, sorted, keys[..i], naming)
      invariant forall d :: d in devices ==> |d.addresses| <= MAX_ADDRESSES_PER_DEVICE
    {
      DevicesSnoc(records, sorted, keys, naming, i);
      assert keys[i] in keys;
      var group := grouped[keys[i]];
      var device := MakeDevice(records, group, conflicting, naming);
      if |device.addresses| > MAX_ADDRESSES_PER_DEVICE {
        DeviceIsAmong(records, sorted, keys, naming, i);
        return Err(TooManyAddresses);
      }
      devices := devices + [device];
    }
    assert keys[..|keys|] == keys;
    return Ok(devices);
  }

  lemma {:induction false} DeviceIsAmong(
    records: seq<Record>, sorted: seq<Record>, keys: seq<string>, naming: Naming, i: nat)
    requires (forall key :: key in keys ==> Group(sorted, key) != []) && i < |keys|
    ensures keys[i] in keys
    ensures DeviceFor(records, Group(sorted, keys[i]), naming) in DevicesFor(records, sorted, keys, naming)
  {
    assert keys[i] in keys;
    if i < |keys| - 1 {
      var front := keys[..|keys| - 1];
      assert forall key :: key in front ==> key in keys;
      DeviceIsAmong(records, sorted, front, naming, i);
      assert front[i] == keys[i];
    }
  }

  method NormalizeRecords(records: seq<Record>, naming: Naming) returns (r: Result<seq<Device>, DeviceError>)
    ensures r == Normalized(records, naming)
  {
    if |records| > MAX_TOTAL_RECORDS {
      return Err(TooManyRecords);
    }
    var sorted := Sort(RecordLeq, records);
    var grouped, seen := GroupRecords(sorted);
    var keys := Sort(LexLeq, seen);
    SortedKeysFacts(records);
    SortPermutes(LexLeq, seen);
    SameMembers(keys, seen);
    var made := MakeDevices(records, sorted, keys, grouped, naming);
    if made.Err? {
      return Err(made.error);
    }
    var disambiguated := Disambiguate(made.value);
    return Ok(Sort(DeviceLeq, disambiguated));
  }

  // ---- Selection ----

  datatype Selection = Nobody | Selected(device: Device) | Refused

  /** `select_device` on a trusted inventory: zero selects nobody, otherwise a selectable device of the list. */
  method SelectDevice(devices: seq<Device>, ready: bool, choice: Option<int>) returns (s: Selection)
    ensures s.Nobody? <==> choice.None? || choice.value == 0
    ensures s.Selected? <==>
              choice.Some? && ready && 1 <= choice.value <= |devices| && devices[choice.value - 1].selectable
    ensures s.Selected? ==> s.device == devices[choice.value - 1]
  {
    if choice.None? || choice.value == 0 {
      return Nobody;
    }
    if choice.value < 0 || !ready || choice.value > |devices| {
      return Refused;
    }
    var device := devices[choice.value - 1];
    if !device.selectable {
      return Refused;
    }
    return Selected(device);
  }
}
