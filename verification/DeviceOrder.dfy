/** When the order of the records matters to the devices (scripts/routerkit_devices.py:305-355, 370-481). */
module DeviceOrder {
  import opened Wrappers
  import opened Ordering
  import opened Devices

  // ---- Records that sort alike ----

  /** Records of one device that the sort cannot tell apart. */
  predicate SortAlike(r: Record, s: Record) {
    SortKey(r) == SortKey(s) && GroupKey(r) == GroupKey(s)
  }

  /** No record of its device that has this field sorts before it. */
  predicate Leads<T>(records: seq<Record>, f: Record -> Option<T>, r: Record) {
    forall s :: s in records && GroupKey(s) == GroupKey(r) && f(s).Some? ==> RecordLeq(r, s)
  }

  /** Where records that sort alike compete for a field of their device, they agree on it. */
  predicate AgreeOn<T(==)>(records: seq<Record>, f: Record -> Option<T>) {
    forall r, s :: r in records && s in records && SortAlike(r, s) && f(r).Some? && f(s).Some? && Leads(records, f, r)
                   ==> f(r) == f(s)
  }

  /** The identifier a device takes from its first record, whatever that is. */
  function HeadOf(r: Record): Option<(Option<string>, IdType)> {
    Some((r.stableId, r.idType))
  }

  predicate Agreeing(records: seq<Record>) {
    && AgreeOn(records, HeadOf) && AgreeOn(records, NameOf) && AgreeOn(records, BandOf) && AgreeOn(records, InterfaceOf)
    && AgreeOn(records, PolicyOf)
  }

  // ---- The order on records ----

  predicate KeyLeq(a: (string, string, string), b: (string, string, string)) {
    if a.0 != b.0 then LexLeq(a.0, b.0) else if a.1 != b.1 then LexLeq(a.1, b.1) else LexLeq(a.2, b.2)
  }

  lemma {:induction false} KeyOrder(
    a: (string, string, string), b: (string, string, string), c: (string, string, string))
    ensures KeyLeq(a, b) || KeyLeq(b, a)
    ensures KeyLeq(a, b) && KeyLeq(b, a) ==> a == b
    ensures KeyLeq(a, b) && KeyLeq(b, c) ==> KeyLeq(a, c)
  {
    LexTotal(a.0, b.0);
    LexTotal(a.1, b.1);
    LexTotal(a.2, b.2);
    LexTotal(b.0, c.0);
    LexTotal(b.1, c.1);
    if KeyLeq(a, b) && KeyLeq(b, c) {
      if a.0 == b.0 == c.0 {
        if a.1 == b.1 == c.1 {
          LexTransitive(a.2, b.2, c.2);
        } else {
          LexTransitive(a.1, b.1, c.1);
        }
      } else {
        LexTransitive(a.0, b.0, c.0);
      }
    }
  }

  lemma {:induction false} RecordsAreOrdered()
    ensures Total(RecordLeq) && Transitive(RecordLeq)
  {
    forall r, s ensures RecordLeq(r, s) || RecordLeq(s, r) {
      KeyOrder(SortKey(r), SortKey(s), SortKey(s));
    }
    forall r, s, t | RecordLeq(r, s) && RecordLeq(s, t) ensures RecordLeq(r, t) {
      KeyOrder(SortKey(r), SortKey(s), SortKey(t));
    }
  }

  lemma {:induction false} TextIsOrdered()
    ensures Total(LexLeq) && Transitive(LexLeq)
    ensures forall x, y :: LexLeq(x, y) && LexLeq(y, x) ==> x == y
  {
    forall x, y ensures LexLeq(x, y) || LexLeq(y, x) ensures LexLeq(x, y) && LexLeq(y, x) ==> x == y {
      LexTotal(x, y);
    }
    forall x, y, z | LexLeq(x, y) && LexLeq(y, z) ensures LexLeq(x, z) {
      LexTransitive(x, y, z);
    }
  }

  // ---- Groups of two arrangements ----

  lemma {:induction false} GroupIsSorted(sorted: seq<Record>, key: string)
    requires Sorted(RecordLeq, sorted)
    ensures Sorted(RecordLeq, Group(sorted, key))
  {
    if sorted != [] {
      var front, last := sorted[..|sorted| - 1], sorted[|sorted| - 1];
      GroupIsSorted(front, key);
      GroupMembers(front, key);
      var rest := Group(front, key);
      forall i | 0 <= i < |rest| ensures RecordLeq(rest[i], last) {
        assert rest[i] in rest && rest[i] in front;
      }
    }
  }

  /** Two sorted arrangements of the same records of one device. */
  ghost predicate Rearranged(g: seq<Record>, h: seq<Record>) {
    && multiset(g) == multiset(h) && Sorted(RecordLeq, g) && Sorted(RecordLeq, h) && Agreeing(g)
    && OneGroup(g)
  }

  lemma {:induction false} GroupAgrees<T>(records: seq<Record>, g: seq<Record>, key: string, f: Record -> Option<T>)
    requires AgreeOn(records, f) && forall r :: r in g <==> r in records && GroupKey(r) == key
    ensures AgreeOn(g, f)
  {
    forall r, s | r in g && s in g && SortAlike(r, s) && f(r).Some? && f(s).Some? && Leads(g, f, r)
      ensures f(r) == f(s)
    {
      assert Leads(records, f, r);
    }
  }

  lemma {:induction false} GroupIsAgreeing(records: seq<Record>, g: seq<Record>, key: string)
    requires Agreeing(records) && forall r :: r in g <==> r in records && GroupKey(r) == key
    ensures Agreeing(g)
  {
    GroupAgrees(records, g, key, HeadOf);
    GroupAgrees(records, g, key, NameOf);
    GroupAgrees(records, g, key, BandOf);
    GroupAgrees(records, g, key, InterfaceOf);
    GroupAgrees(records, g, key, PolicyOf);
  }

  lemma {:induction false} SortedGroup(records: seq<Record>, key: string)
    ensures Sorted(RecordLeq, Group(Sort(RecordLeq, records), key))
    ensures forall r :: r in Group(Sort(RecordLeq, records), key) <==> r in records && GroupKey(r) == key
  {
    var x := Sort(RecordLeq, records);
    RecordsAreOrdered();
    SortPermutes(RecordLeq, records);
    SortSorts(RecordLeq, records);
    SameMembers(x, records);
    GroupIsSorted(x, key);
    GroupMembers(x, key);
  }

  lemma {:induction false} SameGroups(a: seq<Record>, b: seq<Record>, key: string)
    requires multiset(a) == multiset(b)
    ensures multiset(Group(Sort(RecordLeq, a), key)) == multiset(Group(Sort(RecordLeq, b), key))
  {
    SortPermutes(RecordLeq, a);
    SortPermutes(RecordLeq, b);
    GroupMembers(Sort(RecordLeq, a), key);
    GroupMembers(Sort(RecordLeq, b), key);
  }

  lemma {:induction false} GroupsAreRearranged(a: seq<Record>, b: seq<Record>, key: string)
    requires multiset(a) == multiset(b) && Agreeing(a)
    ensures Rearranged(Group(Sort(RecordLeq, a), key), Group(Sort(RecordLeq, b), key))
  {
    SortedGroup(a, key);
    SortedGroup(b, key);
    SameGroups(a, b, key);
    GroupIsAgreeing(a, Group(Sort(RecordLeq, a), key), key);
  }

  // ---- What is read off the first record that has it ----

  ghost predicate OneGroup(g: seq<Record>) {
    forall r, s :: r in g && s in g ==> GroupKey(r) == GroupKey(s)
  }

  /** The first value of a sorted group belongs to a least record among those that have one. */
  lemma {:induction false} FirstIsLeast<T>(g: seq<Record>, f: Record -> Option<T>)
    requires Sorted(RecordLeq, g)
    ensures PickFirst(g, f).None? ==> forall r :: r in g ==> f(r).None?
    ensures PickFirst(g, f).Some? ==> exists r :: r in g && f(r) == PickFirst(g, f) && Leads(g, f, r)
  {
    if g != [] {
      if f(g[0]).Some? {
        assert forall s :: s in g ==> s == g[0] || s in g[1..];
        KeyOrder(SortKey(g[0]), SortKey(g[0]), SortKey(g[0]));
        assert Leads(g, f, g[0]);
      } else {
        FirstIsLeast(g[1..], f);
        if PickFirst(g, f).Some? {
          var r :| r in g[1..] && f(r) == PickFirst(g[1..], f) && Leads(g[1..], f, r);
          assert r in g && Leads(g, f, r);
        }
      }
    }
  }

  /** Rearranging a group does not change a field its competing records agree on. */
  lemma {:induction false} FirstForgetsOrder<T>(g: seq<Record>, h: seq<Record>, f: Record -> Option<T>)
    requires Rearranged(g, h) && AgreeOn(g, f)
    ensures PickFirst(g, f) == PickFirst(h, f)
  {
    SameMembers(g, h);
    FirstIsLeast(g, f);
    FirstIsLeast(h, f);
    if PickFirst(g, f).Some? && PickFirst(h, f).Some? {
      var r :| r in g && f(r) == PickFirst(g, f) && Leads(g, f, r);
      var s :| s in h && f(s) == PickFirst(h, f) && Leads(h, f, s);
      KeyOrder(SortKey(r), SortKey(s), SortKey(s));
      assert SortAlike(r, s);
    }
  }

  // ---- Keys by position ----

  /** In both arrangements the same keys stand at the same places. */
  lemma {:induction false} KeysStay(g: seq<Record>, h: seq<Record>)
    requires Rearranged(g, h)
    ensures Mapped(SortKey, g) == Mapped(SortKey, h)
  {
    MappedPermutes(SortKey, g, h);
    forall x, y | x in Mapped(SortKey, g) && y in Mapped(SortKey, g) && KeyLeq(x, y) && KeyLeq(y, x) ensures x == y {
      KeyOrder(x, y, y);
    }
    SortedArrangementIsUnique(KeyLeq, Mapped(SortKey, g), Mapped(SortKey, h));
  }

  lemma {:induction false} SeedForgetsOrder(g: seq<Record>, h: seq<Record>)
    requires Mapped(SortKey, g) == Mapped(SortKey, h) && forall r :: r in g || r in h ==> Identity(r).None?
    ensures WeakSeed(g) == WeakSeed(h)
  {
    assert |g| == |Mapped(SortKey, g)| == |Mapped(SortKey, h)| == |h|;
    if g != [] {
      assert Mapped(SortKey, g)[0] == SortKey(g[0]) && Mapped(SortKey, h)[0] == SortKey(h[0]);
      assert Mapped(SortKey, g[1..]) == Mapped(SortKey, g)[1..] && Mapped(SortKey, h[1..]) == Mapped(SortKey, h)[1..];
      SeedForgetsOrder(g[1..], h[1..]);
    }
  }

  // ---- The device of a rearranged group ----

  lemma {:induction false} SharedIdentity(g: seq<Record>, r: Record)
    requires g != [] && r in g && forall s :: s in g ==> GroupKey(s) == GroupKey(g[0])
    ensures Identity(r) == Identity(g[0])
  {
    SameKeySameIdentity(r, g[0]);
  }

  lemma {:induction false} HeadsAgree(g: seq<Record>, h: seq<Record>)
    requires Rearranged(g, h) && g != []
    ensures h != [] && Seed(g) == Seed(h) && Identity(g[0]) == Identity(h[0])
  {
    SameMembers(g, h);
    KeysStay(g, h);
    assert Mapped(SortKey, g)[0] == SortKey(g[0]) && Mapped(SortKey, h)[0] == SortKey(h[0]);
    assert h[0] in h && g[0] in g;
    assert SortAlike(g[0], h[0]);
    forall r | r in g ensures Identity(r) == Identity(g[0]) {
      SharedIdentity(g, r);
    }
    if Identity(g[0]).None? {
      SeedForgetsOrder(g, h);
    }
  }

  lemma {:induction false} SymmetricPicks(g: seq<Record>, h: seq<Record>)
    requires forall r :: r in g <==> r in h
    ensures PickOnline(g) == PickOnline(h) && PickLink(g) == PickLink(h) && AllAddresses(g) == AllAddresses(h)
    ensures TrustedIdentities(g) == TrustedIdentities(h)
    ensures (set r | r in g :: r.sourceKind) == (set r | r in h :: r.sourceKind)
    ensures (forall r :: r in g ==> r.stale) <==> (forall r :: r in h ==> r.stale)
  {
  }

  lemma {:induction false} FirstsForgetOrder(g: seq<Record>, h: seq<Record>)
    requires Rearranged(g, h)
    ensures PickFirst(g, HeadOf) == PickFirst(h, HeadOf)
    ensures PickFirst(g, NameOf) == PickFirst(h, NameOf) && PickFirst(g, BandOf) == PickFirst(h, BandOf)
    ensures PickFirst(g, InterfaceOf) == PickFirst(h, InterfaceOf) && PickFirst(g, PolicyOf) == PickFirst(h, PolicyOf)
  {
    FirstForgetsOrder(g, h, HeadOf);
    FirstForgetsOrder(g, h, NameOf);
    FirstForgetsOrder(g, h, BandOf);
    FirstForgetsOrder(g, h, InterfaceOf);
    FirstForgetsOrder(g, h, PolicyOf);
  }

  lemma {:induction false} DeviceForgetsOrder(g: seq<Record>, h: seq<Record>, conflict: bool, naming: Naming)
    requires Rearranged(g, h) && g != []
    ensures h != [] && DeviceOf(g, conflict, naming) == DeviceOf(h, conflict, naming)
  {
    SameMembers(g, h);
    HeadsAgree(g, h);
    SymmetricPicks(g, h);
    FirstsForgetOrder(g, h);
    assert PickFirst(g, HeadOf) == HeadOf(g[0]) && PickFirst(h, HeadOf) == HeadOf(h[0]);
  }

  lemma {:induction false} ConflictForgetsOrder(a: seq<Record>, b: seq<Record>, g: seq<Record>, h: seq<Record>)
    requires (forall r :: r in a <==> r in b) && (forall r :: r in g <==> r in h)
    ensures InConflict(a, g) <==> InConflict(b, h)
  {
    forall v ensures ConflictingVendor(a, v) == ConflictingVendor(b, v) {
    }
  }

  // ---- All devices ----

  lemma {:induction false} CountSeen(records: seq<Record>, key: string)
    ensures multiset(KeysSeen(records))[key] == if key in KeysSeen(records) then 1 else 0
  {
    SeenKeys(records);
    CountOfDistinct(KeysSeen(records), key);
  }

  lemma {:induction false} SortedKeysForgetOrder(a: seq<Record>, b: seq<Record>)
    requires multiset(a) == multiset(b)
    ensures SortedKeys(a) == SortedKeys(b)
  {
    var x, y := Sort(RecordLeq, a), Sort(RecordLeq, b);
    SortPermutes(RecordLeq, a);
    SortPermutes(RecordLeq, b);
    SameMembers(x, y);
    SeenKeys(x);
    SeenKeys(y);
    forall key ensures multiset(KeysSeen(x))[key] == multiset(KeysSeen(y))[key] {
      CountSeen(x, key);
      CountSeen(y, key);
    }
    TextIsOrdered();
    SortForgetsOrder(LexLeq, KeysSeen(x), KeysSeen(y));
  }

  lemma {:induction false} GroupDeviceForgetsOrder(a: seq<Record>, b: seq<Record>, key: string, naming: Naming)
    requires multiset(a) == multiset(b) && Agreeing(a) && Group(Sort(RecordLeq, a), key) != []
    ensures Group(Sort(RecordLeq, b), key) != []
    ensures DeviceFor(a, Group(Sort(RecordLeq, a), key), naming) == DeviceFor(b, Group(Sort(RecordLeq, b), key), naming)
  {
    var g, h := Group(Sort(RecordLeq, a), key), Group(Sort(RecordLeq, b), key);
    GroupsAreRearranged(a, b, key);
    SameMembers(a, b);
    SameMembers(g, h);
    ConflictForgetsOrder(a, b, g, h);
    DeviceForgetsOrder(g, h, InConflict(a, g), naming);
  }

  lemma {:induction false} DevicesForgetOrder(a: seq<Record>, b: seq<Record>, keys: seq<string>, naming: Naming)
    requires multiset(a) == multiset(b) && Agreeing(a)
    requires forall key :: key in keys ==> Group(Sort(RecordLeq, a), key) != []
    ensures forall key :: key in keys ==> Group(Sort(RecordLeq, b), key) != []
    ensures DevicesFor(a, Sort(RecordLeq, a), keys, naming) == DevicesFor(b, Sort(RecordLeq, b), keys, naming)
  {
    if keys != [] {
      var front, last := keys[..|keys| - 1], keys[|keys| - 1];
      assert forall key :: key in keys <==> key in front || key == last;
      DevicesForgetOrder(a, b, front, naming);
      GroupDeviceForgetsOrder(a, b, last, naming);
    }
  }

  /** The outcome, devices or error, is the same for every arrangement of the records, provided those of one device that
      sort alike agree on what only the first contributes. */
  lemma {:induction false} NormalizationForgetsOrder(a: seq<Record>, b: seq<Record>, naming: Naming)
    requires multiset(a) == multiset(b) && Agreeing(a)
    ensures Normalized(a, naming) == Normalized(b, naming)
  {
    SameMembers(a, b);
    SortedKeysForgetOrder(a, b);
    SortedKeysFacts(a);
    DevicesForgetOrder(a, b, SortedKeys(a), naming);
  }
}
