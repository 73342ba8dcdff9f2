/** Exactly when the devices do not depend on the arrangement of the records (scripts/routerkit_devices.py:305-481). */
module DeviceArrangement {
  import opened Wrappers
  import opened Ordering
  import opened Devices
  import opened DeviceTheory
  import opened DeviceOrder

  // ---- Two records that sort alike change places ----

  /** Given first, they stand next to each other in the sorted records, in the order given, and nothing that sorts like
      them or later comes before. */
  lemma {:induction false} SortedSwap(r: Record, s: Record, rest: seq<Record>) returns (u: seq<Record>, v: seq<Record>)
    requires SortKey(r) == SortKey(s)
    ensures Sort(RecordLeq, [r, s] + rest) == u + [r, s] + v && Sort(RecordLeq, [s, r] + rest) == u + [s, r] + v
    ensures forall t :: t in u ==> !RecordLeq(r, t)
  {
    RecordsAreOrdered();
    KeyOrder(SortKey(r), SortKey(s), SortKey(s));
    u, v := SwappedPair(RecordLeq, r, s, rest);
  }

  // ---- What that does to the groups ----

  lemma {:induction false} GroupOfParts(x: seq<Record>, y: seq<Record>, key: string)
    ensures Group(x + y, key) == Group(x, key) + Group(y, key)
  {
    if y == [] {
      assert x + y == x;
    } else {
      assert (x + y)[..|x + y| - 1] == x + y[..|y| - 1];
      GroupOfParts(x, y[..|y| - 1], key);
    }
  }

  lemma {:induction false} GroupOfPair(r: Record, s: Record, key: string)
    requires GroupKey(r) == GroupKey(s)
    ensures Group([r, s], key) == if GroupKey(r) == key then [r, s] else []
  {
    assert [r, s][..1] == [r] && [r][..0] == [];
    assert Group([], key) == [];
    assert Group([r], key) == if GroupKey(r) == key then [r] else [];
  }

  lemma {:induction false} SwappedGroup(u: seq<Record>, r: Record, s: Record, v: seq<Record>, key: string)
    requires GroupKey(r) == GroupKey(s)
    ensures Group(u + [r, s] + v, key) ==
            Group(u, key) + (if GroupKey(r) == key then [r, s] else []) + Group(v, key)
  {
    GroupOfParts(u + [r, s], v, key);
    GroupOfParts(u, [r, s], key);
    GroupOfPair(r, s, key);
  }

  lemma {:induction false} PickPastEmpty<T>(g: seq<Record>, r: Record, h: seq<Record>, f: Record -> Option<T>)
    requires (forall t :: t in g ==> f(t).None?) && f(r).Some?
    ensures PickFirst(g + [r] + h, f) == f(r)
  {
    if g == [] {
      assert g + [r] + h == [r] + h;
    } else {
      assert (g + [r] + h)[0] == g[0] && (g + [r] + h)[1..] == g[1..] + [r] + h;
      PickPastEmpty(g[1..], r, h, f);
    }
  }

  lemma {:induction false} FirstOfPairDecides<T>(
    u: seq<Record>, r: Record, s: Record, v: seq<Record>, f: Record -> Option<T>)
    requires GroupKey(r) == GroupKey(s) && f(r).Some?
    requires forall t :: t in u && GroupKey(t) == GroupKey(r) ==> f(t).None?
    ensures PickFirst(Group(u + [r, s] + v, GroupKey(r)), f) == f(r)
  {
    PairInGroup(u, r, s, v);
    GroupMembers(u, GroupKey(r));
    PickPastEmpty(Group(u, GroupKey(r)), r, [s] + Group(v, GroupKey(r)), f);
  }

  lemma {:induction false} PairInGroup(u: seq<Record>, r: Record, s: Record, v: seq<Record>)
    requires GroupKey(r) == GroupKey(s)
    ensures Group(u + [r, s] + v, GroupKey(r)) == Group(u, GroupKey(r)) + [r] + ([s] + Group(v, GroupKey(r)))
  {
    SwappedGroup(u, r, s, v, GroupKey(r));
    PairSplits(Group(u, GroupKey(r)), r, s, Group(v, GroupKey(r)));
  }

  lemma {:induction false} PairSplits<T>(a: seq<T>, x: T, y: T, b: seq<T>)
    ensures a + [x, y] + b == a + [x] + ([y] + b)
  {
  }

  // ---- Drafts that differ in one device ----

  /** A device apart from whether it may be chosen. */
  function Core(d: Device): Device {
    d.(selectable := false, reason := None)
  }

  lemma {:induction false} LabelsKeepCores(ds: seq<Device>)
    ensures Mapped(Core, Disambiguated(ds)) == Mapped(Core, ds)
  {
    var x := Disambiguated(ds);
    forall k | 0 <= k < |ds| ensures Mapped(Core, x)[k] == Mapped(Core, ds)[k] {
      assert x[k] == Unambiguous(ds, ds[k]) && Core(x[k]) == Core(ds[k]);
    }
  }

  lemma {:induction false} OneDifferenceShows<T>(a: seq<T>, b: seq<T>, k: nat)
    requires |a| == |b| && k < |a| && (forall j :: 0 <= j < |a| && j != k ==> a[j] == b[j]) && a[k] != b[k]
    ensures multiset(a) != multiset(b)
  {
    assert a == a[..k] + [a[k]] + a[k + 1..];
    assert b == a[..k] + [b[k]] + a[k + 1..];
    var others := multiset(a[..k]) + multiset(a[k + 1..]);
    assert multiset(a) == others + multiset{a[k]} && multiset(b) == others + multiset{b[k]};
    assert multiset(a)[a[k]] == others[a[k]] + 1 && multiset(b)[a[k]] == others[a[k]];
  }

  lemma {:induction false} DifferentDraftShows(ds: seq<Device>, es: seq<Device>, k: nat)
    requires |ds| == |es| && k < |ds| && (forall j :: 0 <= j < |ds| && j != k ==> ds[j] == es[j])
    requires Core(ds[k]) != Core(es[k])
    ensures Sort(DeviceLeq, Disambiguated(ds)) != Sort(DeviceLeq, Disambiguated(es))
  {
    var x, y := Disambiguated(ds), Disambiguated(es);
    OneDifferenceShows(Mapped(Core, ds), Mapped(Core, es), k);
    LabelsKeepCores(ds);
    LabelsKeepCores(es);
    SortPermutes(DeviceLeq, x);
    SortPermutes(DeviceLeq, y);
    if Sort(DeviceLeq, x) == Sort(DeviceLeq, y) {
      MappedPermutes(Core, x, y);
    }
  }

  // ---- Errors ----

  lemma {:induction false} DraftAddresses(a: seq<Record>, b: seq<Record>, naming: Naming, k: nat)
    requires multiset(a) == multiset(b) && k < |SortedKeys(a)|
    ensures |Drafts(a, naming)| == |Drafts(b, naming)| == |SortedKeys(a)|
    ensures Drafts(a, naming)[k].addresses == Drafts(b, naming)[k].addresses
  {
    SortedKeysForgetOrder(a, b);
    DraftAt(a, naming, k);
    DraftAt(b, naming, k);
    SameGroups(a, b, SortedKeys(a)[k]);
    SameMembers(KeyGroup(a, k), KeyGroup(b, k));
    SymmetricPicks(KeyGroup(a, k), KeyGroup(b, k));
  }

  lemma {:induction false} OverloadForgetsOrder(a: seq<Record>, b: seq<Record>, naming: Naming)
    requires multiset(a) == multiset(b)
    requires exists d :: d in Drafts(a, naming) && |d.addresses| > MAX_ADDRESSES_PER_DEVICE
    ensures exists d :: d in Drafts(b, naming) && |d.addresses| > MAX_ADDRESSES_PER_DEVICE
  {
    DraftCount(a, naming);
    var d :| d in Drafts(a, naming) && |d.addresses| > MAX_ADDRESSES_PER_DEVICE;
    var k :| 0 <= k < |Drafts(a, naming)| && Drafts(a, naming)[k] == d;
    DraftAddresses(a, b, naming, k);
    assert Drafts(b, naming)[k] in Drafts(b, naming);
  }

  /** Whether the records are refused, and why, never depends on their order. */
  lemma {:induction false} RefusalForgetsOrder(a: seq<Record>, b: seq<Record>, naming: Naming)
    requires multiset(a) == multiset(b) && Normalized(a, naming).Err?
    ensures Normalized(b, naming) == Normalized(a, naming)
  {
    SameMembers(a, b);
    if |a| <= MAX_TOTAL_RECORDS {
      OverloadForgetsOrder(a, b, naming);
    }
  }

  // ---- The converse ----

  /** A field of which a device shows the first value. */
  ghost predicate Shows<T(!new)>(f: Record -> Option<T>, naming: Naming) {
    forall g: seq<Record>, h: seq<Record>, conflict: bool ::
      g != [] && h != [] && PickFirst(g, f).Some? && PickFirst(h, f).Some? && PickFirst(g, f) != PickFirst(h, f) ==>
        Core(DeviceOf(g, conflict, naming)) != Core(DeviceOf(h, conflict, naming))
  }

  lemma {:induction false} FieldsShow(naming: Naming)
    ensures Shows(HeadOf, naming) && Shows(NameOf, naming) && Shows(BandOf, naming) && Shows(InterfaceOf, naming)
    ensures Shows(PolicyOf, naming)
  {
    forall g: seq<Record> | g != [] ensures PickFirst(g, HeadOf) == HeadOf(g[0]) {
    }
  }

  lemma {:induction false} SwappedDrafts(r: Record, s: Record, rest: seq<Record>, naming: Naming) returns (k: nat)
    requires SortAlike(r, s)
    ensures var a, b := [r, s] + rest, [s, r] + rest;
            && SortedKeys(a) == SortedKeys(b) && k < |SortedKeys(a)| && SortedKeys(a)[k] == GroupKey(r)
            && |Drafts(a, naming)| == |Drafts(b, naming)| == |SortedKeys(a)|
            && forall j :: 0 <= j < |SortedKeys(a)| && j != k ==> Drafts(a, naming)[j] == Drafts(b, naming)[j]
  {
    var a, b := [r, s] + rest, [s, r] + rest;
    PairFirst(r, s, rest);
    SortedKeysForgetOrder(a, b);
    DraftCount(a, naming);
    DraftCount(b, naming);
    assert a[0] == r;
    k := KeyPosition(a, r);
    var u, v := SortedSwap(r, s, rest);
    forall j | 0 <= j < |SortedKeys(a)| && j != k ensures Drafts(a, naming)[j] == Drafts(b, naming)[j] {
      SortedKeysFacts(a);
      var key := SortedKeys(a)[j];
      SwappedGroup(u, r, s, v, key);
      SwappedGroup(u, s, r, v, key);
      DraftAt(a, naming, j);
      DraftAt(b, naming, j);
      SameMembers(a, b);
      ConflictForgetsOrder(a, b, KeyGroup(a, j), KeyGroup(b, j));
    }
  }

  lemma {:induction false} PairFirst(r: Record, s: Record, rest: seq<Record>)
    ensures multiset([r, s] + rest) == multiset([s, r] + rest)
  {
    assert multiset([r, s]) == multiset([s, r]);
  }

  /** Competing records that disagree, given first in one order and in the other, make different devices. */
  lemma {:induction false} SwapShows<T(!new)>(
    r: Record, s: Record, rest: seq<Record>, f: Record -> Option<T>, naming: Naming)
    requires SortAlike(r, s) && f(r).Some? && f(s).Some? && f(r) != f(s) && Leads([r, s] + rest, f, r)
    requires Shows(f, naming) && Normalized([r, s] + rest, naming).Ok?
    ensures Normalized([r, s] + rest, naming) != Normalized([s, r] + rest, naming)
  {
    var a, b := [r, s] + rest, [s, r] + rest;
    var k := SwappedDrafts(r, s, rest, naming);
    SwappedDeviceDiffers(r, s, rest, f, naming, k);
    DifferentDraftShows(Drafts(a, naming), Drafts(b, naming), k);
  }

  lemma {:induction false} SameConflict(a: seq<Record>, b: seq<Record>, key: string)
    requires multiset(a) == multiset(b)
    ensures InConflict(a, Group(Sort(RecordLeq, a), key)) <==> InConflict(b, Group(Sort(RecordLeq, b), key))
  {
    SameMembers(a, b);
    SameGroups(a, b, key);
    SameMembers(Group(Sort(RecordLeq, a), key), Group(Sort(RecordLeq, b), key));
    ConflictForgetsOrder(a, b, Group(Sort(RecordLeq, a), key), Group(Sort(RecordLeq, b), key));
  }

  lemma {:induction false} SwappedDeviceDiffers<T(!new)>(
    r: Record, s: Record, rest: seq<Record>, f: Record -> Option<T>, naming: Naming, k: nat)
    requires SortAlike(r, s) && f(r).Some? && f(s).Some? && f(r) != f(s) && Leads([r, s] + rest, f, r)
    requires Shows(f, naming) && SortedKeys([r, s] + rest) == SortedKeys([s, r] + rest)
    requires k < |SortedKeys([r, s] + rest)| && SortedKeys([r, s] + rest)[k] == GroupKey(r)
    ensures k < |Drafts([r, s] + rest, naming)| && k < |Drafts([s, r] + rest, naming)|
    ensures Core(Drafts([r, s] + rest, naming)[k]) != Core(Drafts([s, r] + rest, naming)[k])
  {
    var a, b := [r, s] + rest, [s, r] + rest;
    DraftAt(a, naming, k);
    DraftAt(b, naming, k);
    SwappedFirsts(r, s, rest, f);
    PairFirst(r, s, rest);
    SameConflict(a, b, GroupKey(r));
  }

  lemma {:induction false} SwappedFirsts<T>(r: Record, s: Record, rest: seq<Record>, f: Record -> Option<T>)
    requires SortAlike(r, s) && f(r).Some? && f(s).Some? && Leads([r, s] + rest, f, r)
    ensures PickFirst(Group(Sort(RecordLeq, [r, s] + rest), GroupKey(r)), f) == f(r)
    ensures PickFirst(Group(Sort(RecordLeq, [s, r] + rest), GroupKey(r)), f) == f(s)
  {
    var u, v := SortedSwap(r, s, rest);
    var sorted := u + [r, s] + v;
    SortPermutes(RecordLeq, [r, s] + rest);
    SameMembers(sorted, [r, s] + rest);
    forall t | t in u && GroupKey(t) == GroupKey(r) ensures f(t).None? {
      assert t in sorted;
    }
    FirstOfPairDecides(u, r, s, v, f);
    FirstOfPairDecides(u, s, r, v, f);
  }

  lemma {:induction false} TakeOne(a: seq<Record>, r: Record) returns (rest: seq<Record>)
    requires r in a
    ensures multiset(a) == multiset{r} + multiset(rest)
    ensures forall s :: s in a && s != r ==> s in rest
  {
    var i :| 0 <= i < |a| && a[i] == r;
    TakenOut(SortKey, a, i);
    rest := Without(a, i);
    forall s | s in a && s != r ensures s in rest {
      var j :| 0 <= j < |a| && a[j] == s;
      assert if j < i then rest[j] == s else rest[j - 1] == s;
    }
  }

  lemma {:induction false} BringForward(a: seq<Record>, r: Record, s: Record) returns (rest: seq<Record>)
    requires r in a && s in a && r != s
    ensures multiset([r, s] + rest) == multiset(a)
  {
    var b := TakeOne(a, r);
    rest := TakeOne(b, s);
    assert [r, s] + rest == [r] + ([s] + rest);
    assert multiset([s] + rest) == multiset(b);
  }

  /** Every arrangement of the records has the same outcome. */
  ghost predicate OrderFree(a: seq<Record>, naming: Naming) {
    forall b :: multiset(b) == multiset(a) ==> Normalized(b, naming) == Normalized(a, naming)
  }

  lemma {:induction false} TwoOutcomes(a: seq<Record>, b: seq<Record>, c: seq<Record>, naming: Naming)
    requires multiset(b) == multiset(a) && multiset(c) == multiset(a) && Normalized(b, naming) != Normalized(c, naming)
    ensures !OrderFree(a, naming)
  {
    assert Normalized(b, naming) != Normalized(a, naming) || Normalized(c, naming) != Normalized(a, naming);
  }

  lemma {:induction false} LeadsAnywhere<T>(a: seq<Record>, b: seq<Record>, f: Record -> Option<T>, r: Record)
    requires multiset(a) == multiset(b) && Leads(a, f, r)
    ensures Leads(b, f, r)
  {
    SameMembers(a, b);
  }

  lemma {:induction false} PairMatters<T(!new)>(
    a: seq<Record>, r: Record, s: Record, f: Record -> Option<T>, naming: Naming)
    requires r in a && s in a && SortAlike(r, s) && f(r).Some? && f(s).Some? && Leads(a, f, r) && f(r) != f(s)
    requires Shows(f, naming) && Normalized(a, naming).Ok?
    ensures !OrderFree(a, naming)
  {
    var rest := BringForward(a, r, s);
    var b, c := [r, s] + rest, [s, r] + rest;
    PairFirst(r, s, rest);
    LeadsAnywhere(a, b, f, r);
    if Normalized(b, naming).Ok? {
      SwapShows(r, s, rest, f, naming);
      TwoOutcomes(a, b, c, naming);
    } else {
      TwoOutcomes(a, a, b, naming);
    }
  }

  lemma {:induction false} DisagreementMatters<T(!new)>(a: seq<Record>, f: Record -> Option<T>, naming: Naming)
    requires !AgreeOn(a, f) && Shows(f, naming) && Normalized(a, naming).Ok?
    ensures !OrderFree(a, naming)
  {
    var r, s :| r in a && s in a && SortAlike(r, s) && f(r).Some? && f(s).Some? && Leads(a, f, r) && f(r) != f(s);
    PairMatters(a, r, s, f, naming);
  }

  /** The order of the records does not matter exactly when they are refused anyway, or wherever records of one device
      that sort alike compete for its identifier, name, band, interface or policy, they agree on it. */
  lemma {:induction false} OrderFreeIff(a: seq<Record>, naming: Naming)
    ensures OrderFree(a, naming) <==> Normalized(a, naming).Err? || Agreeing(a)
  {
    FieldsShow(naming);
    if Normalized(a, naming).Err? {
      forall b | multiset(b) == multiset(a) ensures Normalized(b, naming) == Normalized(a, naming) {
        RefusalForgetsOrder(a, b, naming);
      }
    } else if Agreeing(a) {
      forall b | multiset(b) == multiset(a) ensures Normalized(b, naming) == Normalized(a, naming) {
        NormalizationForgetsOrder(a, b, naming);
      }
    } else if !AgreeOn(a, HeadOf) {
      DisagreementMatters(a, HeadOf, naming);
    } else if !AgreeOn(a, NameOf) {
      DisagreementMatters(a, NameOf, naming);
    } else if !AgreeOn(a, BandOf) {
      DisagreementMatters(a, BandOf, naming);
    } else if !AgreeOn(a, InterfaceOf) {
      DisagreementMatters(a, InterfaceOf, naming);
    } else {
      DisagreementMatters(a, PolicyOf, naming);
    }
  }

  /** In particular records with pairwise different sort keys may come in any order. */
  lemma {:induction false} DistinctKeysAreOrderFree(a: seq<Record>, naming: Naming)
    requires forall r, s :: r in a && s in a && SortKey(r) == SortKey(s) ==> r == s
    ensures OrderFree(a, naming)
  {
    OrderFreeIff(a, naming);
  }

  const LAPTOP := Record(
    "arp", "router", "1", Some(Label("laptop", "laptop", "laptop")), [], Some("02:00:00:00:00:01"), MacId, None, Online,
    Ethernet, None, None, None, false)
  const RENAMED := LAPTOP.(name := Some(Label("desktop", "desktop", "desktop")))

  /** An instance: one source reports one record id and MAC twice under two names, and the first name wins. */
  lemma {:induction false} OrderShows(naming: Naming)
    ensures Normalized([LAPTOP, RENAMED], naming) != Normalized([RENAMED, LAPTOP], naming)
  {
    var rest: seq<Record> := [];
    var a := [LAPTOP, RENAMED];
    assert a + rest == a && [RENAMED, LAPTOP] + rest == [RENAMED, LAPTOP];
    if Normalized(a, naming).Ok? {
      FieldsShow(naming);
      KeyOrder(SortKey(LAPTOP), SortKey(RENAMED), SortKey(RENAMED));
      SwapShows(LAPTOP, RENAMED, rest, NameOf, naming);
    } else {
      NoAddressesNoRefusal(a, naming);
    }
  }

  lemma {:induction false} NoAddressesNoRefusal(a: seq<Record>, naming: Naming)
    requires |a| <= MAX_TOTAL_RECORDS && forall r :: r in a ==> r.addresses == []
    ensures Normalized(a, naming).Ok?
  {
    DraftCount(a, naming);
    forall d | d in Drafts(a, naming) ensures d.addresses == {} {
      var k :| 0 <= k < |Drafts(a, naming)| && Drafts(a, naming)[k] == d;
      DraftAt(a, naming, k);
      SortedGroup(a, SortedKeys(a)[k]);
    }
  }
}
