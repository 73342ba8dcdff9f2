/** Neither the fingerprint nor the plan depends on inventory order or on the snapshot id
    (scripts/routerkit_netcraze_plan.py:637-665, 1297-1690). */
module PlanPermutation {
  import opened Wrappers
  import opened PlanModel
  import opened PlanBuilder
  import opened Ordering
  import opened PlanStages
  import opened PlanReport
  import opened PlanIntegrity

  /** The same observations, listed in another order and perhaps under another snapshot id. */
  ghost predicate Reordered(s: Snapshot, t: Snapshot) {
    && multiset(s.connections) == multiset(t.connections)
    && multiset(s.policies) == multiset(t.policies)
    && multiset(s.assignments) == multiset(t.assignments)
    && t == s.(snapshotId := t.snapshotId, connections := t.connections, policies := t.policies,
               assignments := t.assignments)
  }

  lemma {:induction false} Twice<T>(xs: seq<T>, i: nat, j: nat)
    requires i < j < |xs| && xs[i] == xs[j]
    ensures multiset(xs)[xs[i]] >= 2
  {
    assert xs == xs[..i] + [xs[i]] + xs[i + 1..j] + [xs[j]] + xs[j + 1..];
  }

  lemma {:induction false} OnceEach<T>(xs: seq<T>, x: T)
    requires forall i, j :: 0 <= i < j < |xs| ==> xs[i] != xs[j]
    ensures multiset(xs)[x] <= 1
  {
    if xs != [] {
      assert xs == [xs[0]] + xs[1..];
      OnceEach(xs[1..], x);
    }
  }

  lemma {:induction false} NoRepeats<T>(xs: seq<T>, ys: seq<T>)
    requires multiset(xs) == multiset(ys) && forall i, j :: 0 <= i < j < |xs| ==> xs[i] != xs[j]
    ensures forall i, j :: 0 <= i < j < |ys| ==> ys[i] != ys[j]
  {
    forall i, j | 0 <= i < j < |ys| ensures ys[i] != ys[j] {
      OnceEach(xs, ys[i]);
      if ys[i] == ys[j] {
        Twice(ys, i, j);
      }
    }
  }

  lemma {:induction false} ConnectionsReordered(cs: seq<Connection>, ds: seq<Connection>)
    requires multiset(cs) == multiset(ds) && ConnectionsDistinct(cs)
    ensures ConnectionsDistinct(ds) && forall c :: c in cs <==> c in ds
  {
    SameMembers(cs, ds);
    NoRepeats(cs, ds);
    forall i, j | 0 <= i < j < |ds| ensures ds[i].id != ds[j].id && ds[i].name.folded != ds[j].name.folded {
      if ds[i].id == ds[j].id || ds[i].name.folded == ds[j].name.folded {
        SameConnection(cs, ds[i], ds[j]);
      }
    }
  }

  lemma {:induction false} PoliciesReordered(qs: seq<Policy>, rs: seq<Policy>)
    requires multiset(qs) == multiset(rs) && PoliciesDistinct(qs)
    ensures PoliciesDistinct(rs) && forall q :: q in qs <==> q in rs
  {
    SameMembers(qs, rs);
    NoRepeats(qs, rs);
    forall i, j | 0 <= i < j < |rs| ensures rs[i].id != rs[j].id && rs[i].name.folded != rs[j].name.folded {
      if rs[i].id == rs[j].id || rs[i].name.folded == rs[j].name.folded {
        SamePolicy(qs, rs[i], rs[j]);
      }
    }
  }

  lemma {:induction false} SameConnectionLookup(cs: seq<Connection>, ds: seq<Connection>, id: string)
    requires ConnectionsDistinct(cs) && ConnectionsDistinct(ds) && forall c :: c in cs <==> c in ds
    ensures FindConnection(ds, id) == FindConnection(cs, id)
  {
    FoundConnection(cs, id);
    FoundConnection(ds, id);
    if FindConnection(cs, id).Some? {
      LookupConnection(ds, FindConnection(cs, id).value);
    }
  }

  lemma {:induction false} SamePolicyLookup(qs: seq<Policy>, rs: seq<Policy>, id: string)
    requires PoliciesDistinct(qs) && PoliciesDistinct(rs) && forall q :: q in qs <==> q in rs
    ensures FindPolicy(rs, id) == FindPolicy(qs, id)
  {
    FoundPolicy(qs, id);
    FoundPolicy(rs, id);
    if FindPolicy(qs, id).Some? {
      LookupPolicy(rs, FindPolicy(qs, id).value);
    }
  }

  lemma {:induction false} DefaultsCounted(qs: seq<Policy>, q: Policy)
    ensures multiset(ObservedDefaults(qs))[q] == if q.isDefault then multiset(qs)[q] else 0
  {
    if qs != [] {
      assert qs == [qs[0]] + qs[1..];
      DefaultsCounted(qs[1..], q);
    }
  }

  lemma {:induction false} SmallArrangement<T>(a: seq<T>, b: seq<T>)
    requires multiset(a) == multiset(b)
    ensures |a| == |b| && (|a| <= 1 ==> a == b)
  {
    SameMembers(a, b);
    if |a| == 1 {
      assert a[0] in b;
    }
  }

  lemma {:induction false} SameDefaults(qs: seq<Policy>, rs: seq<Policy>)
    requires multiset(qs) == multiset(rs)
    ensures |ObservedDefaults(qs)| == |ObservedDefaults(rs)|
    ensures |ObservedDefaults(qs)| <= 1 ==> ObservedDefaults(qs) == ObservedDefaults(rs)
  {
    forall q ensures multiset(ObservedDefaults(qs))[q] == multiset(ObservedDefaults(rs))[q] {
      DefaultsCounted(qs, q);
      DefaultsCounted(rs, q);
    }
    SmallArrangement(ObservedDefaults(qs), ObservedDefaults(rs));
  }

  lemma {:induction false} AssignmentsReordered(xs: seq<Assignment>, ys: seq<Assignment>, mac: string)
    requires multiset(xs) == multiset(ys)
    requires forall i, j :: 0 <= i < j < |xs| ==> xs[i].mac != xs[j].mac
    ensures forall i, j :: 0 <= i < j < |ys| ==> ys[i].mac != ys[j].mac
    ensures FindAssignment(ys, mac) == FindAssignment(xs, mac)
  {
    SameMembers(xs, ys);
    NoRepeats(xs, ys);
    forall i, j | 0 <= i < j < |ys| ensures ys[i].mac != ys[j].mac {
      SameAssignment(xs, ys[i], ys[j]);
    }
    UnassignedDevice(xs, mac);
    UnassignedDevice(ys, mac);
    if FindAssignment(xs, mac).Some? {
      SameAssignment(xs, FindAssignment(xs, mac).value, FindAssignment(ys, mac).value);
    }
  }

  lemma {:induction false} SameAssignment(xs: seq<Assignment>, x: Assignment, y: Assignment)
    requires forall i, j :: 0 <= i < j < |xs| ==> xs[i].mac != xs[j].mac
    requires x in xs && y in xs
    ensures x.mac == y.mac ==> x == y
  {
    var i :| 0 <= i < |xs| && xs[i] == x;
    var j :| 0 <= j < |xs| && xs[j] == y;
  }

  /** The lookups and memberships planning relies on are the same on both orderings. */
  ghost predicate SameView(s: Snapshot, t: Snapshot) {
    && (forall c :: c in s.connections <==> c in t.connections)
    && (forall q :: q in s.policies <==> q in t.policies)
    && (forall x :: x in s.assignments <==> x in t.assignments)
    && (forall id :: FindConnection(t.connections, id) == FindConnection(s.connections, id))
    && (forall id :: FindPolicy(t.policies, id) == FindPolicy(s.policies, id))
    && (forall mac :: FindAssignment(t.assignments, mac) == FindAssignment(s.assignments, mac))
  }

  lemma {:induction false} ReorderedView(s: Snapshot, t: Snapshot)
    requires Reordered(s, t) && Consistent(s)
    ensures SameView(s, t) && ConnectionsDistinct(t.connections) && PoliciesDistinct(t.policies)
    ensures forall i, j :: 0 <= i < j < |t.assignments| ==> t.assignments[i].mac != t.assignments[j].mac
  {
    ConnectionsReordered(s.connections, t.connections);
    PoliciesReordered(s.policies, t.policies);
    SameMembers(s.assignments, t.assignments);
    forall id ensures FindConnection(t.connections, id) == FindConnection(s.connections, id) {
      SameConnectionLookup(s.connections, t.connections, id);
    }
    forall id ensures FindPolicy(t.policies, id) == FindPolicy(s.policies, id) {
      SamePolicyLookup(s.policies, t.policies, id);
    }
    forall mac ensures FindAssignment(t.assignments, mac) == FindAssignment(s.assignments, mac) {
      AssignmentsReordered(s.assignments, t.assignments, mac);
    }
    AssignmentsReordered(s.assignments, t.assignments, "");
  }

  lemma {:induction false} ReorderedIsConsistent(s: Snapshot, t: Snapshot)
    requires Reordered(s, t) && Consistent(s)
    ensures Consistent(t) && DefaultProjection(t) == DefaultProjection(s)
  {
    ReorderedView(s, t);
    SameDefaults(s.policies, t.policies);
    assert AssignmentsConsistent(t.assignments, t.policies);
  }

  lemma {:induction false} KeysOrder()
    ensures Total(ConnectionLeq) && Transitive(ConnectionLeq)
    ensures Total(PolicyLeq) && Transitive(PolicyLeq)
  {
    forall a: Connection, b: Connection ensures ConnectionLeq(a, b) || ConnectionLeq(b, a) {
      LexTotal(a.id, b.id);
    }
    forall a: Connection, b: Connection, c: Connection | ConnectionLeq(a, b) && ConnectionLeq(b, c)
      ensures ConnectionLeq(a, c)
    {
      LexTransitive(a.id, b.id, c.id);
    }
    forall a: Policy, b: Policy ensures PolicyLeq(a, b) || PolicyLeq(b, a) {
      LexTotal(a.id, b.id);
    }
    forall a: Policy, b: Policy, c: Policy | PolicyLeq(a, b) && PolicyLeq(b, c) ensures PolicyLeq(a, c) {
      LexTransitive(a.id, b.id, c.id);
    }
  }

  lemma {:induction false} PairsTotal(a: (string, string), b: (string, string))
    ensures PairLeq(a, b) || PairLeq(b, a)
    ensures PairLeq(a, b) && PairLeq(b, a) ==> a == b
  {
    LexTotal(a.0, b.0);
    LexTotal(a.1, b.1);
  }

  lemma {:induction false} PairsTransitive(a: (string, string), b: (string, string), c: (string, string))
    requires PairLeq(a, b) && PairLeq(b, c)
    ensures PairLeq(a, c)
  {
    if a.0 == b.0 == c.0 {
      LexTransitive(a.1, b.1, c.1);
    } else {
      LexTotal(a.0, b.0);
      LexTotal(b.0, c.0);
      LexTransitive(a.0, b.0, c.0);
      if a.0 == c.0 { LexTotal(a.0, b.0); }
    }
  }

  lemma {:induction false} AssignmentsOrder()
    ensures Total(AssignmentLeq) && Transitive(AssignmentLeq)
  {
    forall a: Assignment, b: Assignment ensures AssignmentLeq(a, b) || AssignmentLeq(b, a) {
      PairsTotal((a.mac, a.policyRef), (b.mac, b.policyRef));
    }
    forall a: Assignment, b: Assignment, c: Assignment | AssignmentLeq(a, b) && AssignmentLeq(b, c)
      ensures AssignmentLeq(a, c)
    {
      PairsTransitive((a.mac, a.policyRef), (b.mac, b.policyRef), (c.mac, c.policyRef));
    }
  }

  /** The semantic fingerprint forgets inventory order and the snapshot id. */
  lemma {:induction false} FingerprintForgetsOrder(s: Snapshot, t: Snapshot)
    requires Reordered(s, t) && Consistent(s)
    ensures Consistent(t) && SemanticFingerprint(t) == SemanticFingerprint(s)
  {
    ReorderedIsConsistent(s, t);
    KeysOrder();
    AssignmentsOrder();
    forall a, b | a in s.connections && b in s.connections && ConnectionLeq(a, b) && ConnectionLeq(b, a)
      ensures a == b
    {
      LexTotal(a.id, b.id);
      SameConnection(s.connections, a, b);
    }
    forall a, b | a in s.policies && b in s.policies && PolicyLeq(a, b) && PolicyLeq(b, a) ensures a == b {
      LexTotal(a.id, b.id);
      SamePolicy(s.policies, a, b);
    }
    forall a, b | a in s.assignments && b in s.assignments && AssignmentLeq(a, b) && AssignmentLeq(b, a)
      ensures a == b
    {
      PairsTotal((a.mac, a.policyRef), (b.mac, b.policyRef));
    }
    SortForgetsOrder(ConnectionLeq, s.connections, t.connections);
    SortForgetsOrder(PolicyLeq, s.policies, t.policies);
    SortForgetsOrder(AssignmentLeq, s.assignments, t.assignments);
  }

  /** The same observations of everything planning looks at, in any order and under any snapshot id. */
  ghost predicate SameObservations(s: Snapshot, t: Snapshot) {
    && s.state == t.state && s.stale == t.stale && s.defaultStatus == t.defaultStatus && s.defaultRef == t.defaultRef
    && multiset(s.connections) == multiset(t.connections) && multiset(s.policies) == multiset(t.policies)
    && multiset(s.assignments) == multiset(t.assignments) && multiset(s.capabilities) == multiset(t.capabilities)
  }

  lemma {:induction false} SortShows<T>(leq: (T, T) -> bool, a: seq<T>, b: seq<T>)
    requires Sort(leq, a) == Sort(leq, b)
    ensures multiset(a) == multiset(b)
  {
    SortPermutes(leq, a);
    SortPermutes(leq, b);
  }

  lemma {:induction false} CapabilitiesForgetOrder(a: seq<(string, string)>, b: seq<(string, string)>)
    requires multiset(a) == multiset(b)
    ensures Sort(PairLeq, a) == Sort(PairLeq, b)
  {
    forall x, y ensures PairLeq(x, y) || PairLeq(y, x) ensures PairLeq(x, y) && PairLeq(y, x) ==> x == y {
      PairsTotal(x, y);
    }
    forall x, y, z | PairLeq(x, y) && PairLeq(y, z) ensures PairLeq(x, z) {
      PairsTransitive(x, y, z);
    }
    SortForgetsOrder(PairLeq, a, b);
  }

  lemma {:induction false} ProjectionNamesDefault(s: Snapshot)
    requires Consistent(s)
    ensures DefaultProjection(s).status == s.defaultStatus && DefaultProjection(s).defaultRef == s.defaultRef
  {
  }

  /** Two consistent snapshots have one fingerprint exactly if they observe the same: nothing planning looks at is left
      out of it, and nothing else is in it. */
  lemma {:induction false} FingerprintIff(s: Snapshot, t: Snapshot)
    requires Consistent(s) && Consistent(t)
    ensures SemanticFingerprint(s) == SemanticFingerprint(t) <==> SameObservations(s, t)
  {
    if SemanticFingerprint(s) == SemanticFingerprint(t) {
      ProjectionNamesDefault(s);
      ProjectionNamesDefault(t);
      SortShows(ConnectionLeq, s.connections, t.connections);
      SortShows(PolicyLeq, s.policies, t.policies);
      SortShows(AssignmentLeq, s.assignments, t.assignments);
      SortShows(PairLeq, s.capabilities, t.capabilities);
    } else if SameObservations(s, t) {
      SameObservationsShow(s, t);
    }
  }

  lemma {:induction false} SameObservationsShow(s: Snapshot, t: Snapshot)
    requires Consistent(s) && Consistent(t) && SameObservations(s, t)
    ensures SemanticFingerprint(s) == SemanticFingerprint(t)
  {
    var u := t.(capabilities := s.capabilities);
    FingerprintForgetsOrder(s, u);
    CapabilitiesForgetOrder(s.capabilities, t.capabilities);
  }

  lemma {:induction false} SameConnectionChoice(s: Snapshot, t: Snapshot, p: Profile)
    requires SameView(s, t)
    ensures ConnectionChoice(t, p) == ConnectionChoice(s, p)
  {
    assert ExactConnections(t, p) == ExactConnections(s, p);
    assert NamedConnections(t, p) == NamedConnections(s, p);
  }

  lemma {:induction false} SamePolicyChoice(s: Snapshot, t: Snapshot, p: Profile)
    requires SameView(s, t) && s.defaultRef == t.defaultRef
    ensures ReferenceAt(t, p) == ReferenceAt(s, p) && PolicyChoiceFor(t, p) == PolicyChoiceFor(s, p)
  {
    SameConnectionChoice(s, t, p);
    if ReferenceAt(s, p).Some? {
      assert ExactPolicies(t, ReferenceAt(s, p).value) == ExactPolicies(s, ReferenceAt(s, p).value);
      assert NamedPolicies(t, p) == NamedPolicies(s, p);
    }
  }

  ghost predicate SameChoices(s: Snapshot, t: Snapshot, p: Profile) {
    && ConnectionChoice(t, p) == ConnectionChoice(s, p) && ReferenceAt(t, p) == ReferenceAt(s, p)
    && PolicyChoiceFor(t, p) == PolicyChoiceFor(s, p)
  }

  lemma {:induction false} SameProfileActions(s: Snapshot, t: Snapshot, ps: seq<Profile>)
    requires s.stale == t.stale && forall p :: SameChoices(s, t, p)
    ensures ConnectionActions(t, ps) == ConnectionActions(s, ps) && PolicyActions(t, ps) == PolicyActions(s, ps)
  {
    forall i | 0 <= i < |ps|
      ensures ConnectionActions(t, ps)[i] == ConnectionActions(s, ps)[i]
      ensures PolicyActions(t, ps)[i] == PolicyActions(s, ps)[i]
    {
      assert SameChoices(s, t, ps[i]);
    }
  }

  lemma {:induction false} SameAssignmentChoice(s: Snapshot, t: Snapshot, p: Profile, d: Device)
    requires SameView(s, t) && s.defaultRef == t.defaultRef && SameChoices(s, t, p)
    ensures PolicyReferenceAt(t, p) == PolicyReferenceAt(s, p)
    ensures AssignmentChoiceFor(t, p, d) == AssignmentChoiceFor(s, p, d)
  {
  }

  lemma {:induction false} SameRefusals(s: Snapshot, t: Snapshot, ps: seq<Profile>, d: Option<Device>)
    requires SameView(s, t) && s.defaultRef == t.defaultRef && ps != [] && forall p :: SameChoices(s, t, p)
    ensures AllChosen(t, ps, d) <==> AllChosen(s, ps, d)
  {
    forall p | p in ps
      ensures (ConnectionChoice(t, p).Refuse? <==> ConnectionChoice(s, p).Refuse?)
              && (PolicyChoiceFor(t, p).Refuse? <==> PolicyChoiceFor(s, p).Refuse?)
    {
      assert SameChoices(s, t, p);
    }
    if d.Some? {
      assert SameChoices(s, t, ps[0]);
      SameAssignmentChoice(s, t, ps[0], d.value);
    }
  }

  lemma {:induction false} SameNames(s: Snapshot, t: Snapshot, ps: seq<Profile>, d: Option<Device>)
    requires ps != [] && forall p :: SameChoices(s, t, p)
    ensures NamedReferences(t, ps, d) <==> NamedReferences(s, ps, d)
  {
    forall p ensures ReferenceAt(t, p) == ReferenceAt(s, p) {
      assert SameChoices(s, t, p);
    }
    assert SameChoices(s, t, ps[0]);
  }

  lemma {:induction false} SameDeviceActions(s: Snapshot, t: Snapshot, ps: seq<Profile>, d: Option<Device>)
    requires SameView(s, t) && s.defaultRef == t.defaultRef && s.stale == t.stale && ps != []
    requires SameChoices(s, t, ps[0])
    ensures AssignmentActions(t, ps, d) == AssignmentActions(s, ps, d)
  {
    if d.Some? {
      SameAssignmentChoice(s, t, ps[0], d.value);
    }
  }

  lemma {:induction false} EverySameChoice(s: Snapshot, t: Snapshot)
    requires SameView(s, t) && s.defaultRef == t.defaultRef
    ensures forall p :: SameChoices(s, t, p)
  {
    forall p ensures SameChoices(s, t, p) {
      SameConnectionChoice(s, t, p);
      SamePolicyChoice(s, t, p);
    }
  }

  lemma {:induction false} SameObjectActions(s: Snapshot, t: Snapshot, ps: seq<Profile>, d: Option<Device>)
    requires SameView(s, t) && s.defaultRef == t.defaultRef && s.stale == t.stale && ps != []
    ensures ObjectActions(t, ps, d) == ObjectActions(s, ps, d) && (AllChosen(t, ps, d) <==> AllChosen(s, ps, d))
    ensures NamedReferences(t, ps, d) <==> NamedReferences(s, ps, d)
  {
    EverySameChoice(s, t);
    SameProfileActions(s, t, ps);
    SameDeviceActions(s, t, ps, d);
    SameRefusals(s, t, ps, d);
    SameNames(s, t, ps, d);
  }

  lemma {:induction false} SamePlannedActions(s: Snapshot, t: Snapshot, ps: seq<Profile>, d: Option<Device>)
    requires Reordered(s, t) && Consistent(s) && Consistent(t) && SameView(s, t) && ps != []
    requires ObjectActions(t, ps, d) == ObjectActions(s, ps, d) && (AllChosen(t, ps, d) <==> AllChosen(s, ps, d))
    ensures NotTargeted(t, ObjectActions(t, ps, d)) == NotTargeted(s, ObjectActions(s, ps, d))
    ensures PlanBlocked(t, ps, d) == PlanBlocked(s, ps, d)
    ensures PlannedActions(t, ps, d) == PlannedActions(s, ps, d)
  {
  }

  /** Reordering the inventories or renaming the snapshot never changes the plan. */
  lemma {:induction false} PlanForgetsOrder(s: Snapshot, t: Snapshot, ps: seq<Profile>, d: Option<Device>)
    requires Reordered(s, t) && Consistent(s) && ps != []
    ensures Consistent(t) && PlanFor(t, ps, d) == PlanFor(s, ps, d)
    ensures NamedReferences(t, ps, d) <==> NamedReferences(s, ps, d)
  {
    FingerprintForgetsOrder(s, t);
    ReorderedIsConsistent(s, t);
    ReorderedView(s, t);
    SameObjectActions(s, t, ps, d);
    SamePlannedActions(s, t, ps, d);
  }

  /** So a plan built on one ordering is current, hence simulated, on every other. */
  lemma {:induction false} PlanCurrentOnEveryOrdering(plan: ChangePlan, s: Snapshot, t: Snapshot)
    requires Current(plan, s) && Reordered(s, t)
    ensures Current(plan, t) && SemanticFingerprint(t) == plan.source && DefaultProjection(t) == plan.sourceDefault
  {
    PlanForgetsOrder(s, t, plan.desired, plan.device);
  }
}
