/** Running an unblocked plan: every action applies, verifies, and lands on the next stage. */
module PlanRuns {
  import opened Wrappers
  import opened PlanModel
  import opened PlanBuilder
  import opened PlanExecution
  import opened PlanBindings
  import opened PlanStages

  // ---- Actions as instructions about bindings ----

  predicate RefersToConnection(ref: Reference, id: string) {
    (ref.kind.ExistingConnection? && ref.value == Some(id))
    || (ref.kind.PlannedConnection? && SimulatedConnectionId(ref.slot.GetOr(0)) == id)
  }

  predicate RefersToPolicy(ref: Reference, id: string) {
    (ref.kind.ExistingPolicy? && ref.value == Some(id))
    || (ref.kind.PlannedPolicy? && SimulatedPolicyId(ref.slot.GetOr(0)) == id)
  }

  predicate BindsConnection(a: PlanAction, p: Profile, b: Binding) {
    && a.id.ConnectionStep? && a.slot == Some(p.slot)
    && if b.newConnection
       then a.operation.CreateConnection? && CreatedConnection(p, a.target) == b.connection
       else a.operation.ReuseConnection? && a.observedId == Some(b.connection.id)
            && a.observedName == Some(b.connection.name)
  }

  predicate BindsPolicy(a: PlanAction, p: Profile, b: Binding) {
    && a.id.PolicyStep? && a.slot == Some(p.slot)
    && |a.dependencies| == 1 && RefersToConnection(a.dependencies[0], b.connection.id)
    && if b.newPolicy
       then a.operation.CreatePolicy? && CreatedPolicy(p, a.target, b.connection.id) == b.policy
       else a.operation.ReusePolicy? && a.observedId == Some(b.policy.id) && a.observedName == Some(b.policy.name)
  }

  /** x is the assignment to add; None keeps the one already recorded. */
  predicate BindsDevice(a: PlanAction, s: Snapshot, d: Device, policyId: string, x: Option<Assignment>) {
    && a.id.AssignmentStep?
    && |a.dependencies| == 1 && RefersToPolicy(a.dependencies[0], policyId)
    && if x.Some?
       then a.operation.AssignDevice? && x.value == Assignment(d.mac, policyId)
       else a.operation.ReuseAssignment? && FindAssignment(s.assignments, d.mac) == Some(Assignment(d.mac, policyId))
  }

  function ObjectCount(n: nat, d: Option<Device>): nat {
    2 * n + (if d.Some? then 1 else 0)
  }

  predicate IsVerification(a: PlanAction, d: Option<Device>) {
    a.operation.Verify?
    && (a.id.VerifyConnections? || a.id.VerifyPolicies? || (a.id.VerifyAssignment? && d.Some?) || a.id.VerifyDefault?)
  }

  /** What the k-th action of an unblocked plan has to be. */
  predicate Instruction(
    s: Snapshot, ps: seq<Profile>, d: Option<Device>, bs: seq<Binding>, x: Option<Assignment>, k: nat, a: PlanAction)
    requires |bs| == |ps| > 0
  {
    var n := |ps|;
    if k < n then BindsConnection(a, ps[k], bs[k])
    else if k < 2 * n then BindsPolicy(a, ps[k - n], bs[k - n])
    else if k == 2 * n && d.Some? then BindsDevice(a, s, d.value, bs[0].policy.id, x)
    else IsVerification(a, d)
  }

  /** The plan's actions carry out exactly these bindings, then only verify. */
  ghost predicate Enacts(
    plan: ChangePlan, s: Snapshot, ps: seq<Profile>, d: Option<Device>, bs: seq<Binding>, x: Option<Assignment>)
  {
    && Bound(s, ps, bs) && AssignmentFits(s, bs, x) && (x.Some? ==> d.Some?)
    && plan.desired == ps && plan.device == d && plan.sourceDefault == DefaultProjection(s)
    && |plan.actions| >= ObjectCount(|ps|, d)
    && forall k {:trigger Instruction(s, ps, d, bs, x, k, plan.actions[k])} ::
         0 <= k < |plan.actions| ==> Instruction(s, ps, d, bs, x, k, plan.actions[k])
  }

  // ---- Where a run stands after k actions ----

  function Min(a: int, b: int): int {
    if a < b then a else b
  }

  function Max(a: int, b: int): int {
    if a < b then b else a
  }

  /** The stage a run has reached after k actions. */
  function Progress(
    s: Snapshot, bs: seq<Binding>, x: Option<Assignment>, k: nat): Snapshot
  {
    Stage(s, bs, Min(k, |bs|), Max(0, Min(k - |bs|, |bs|)), if k > 2 * |bs| then x else None)
  }

  lemma {:induction false} ActionFindsProfile(ps: seq<Profile>, a: PlanAction, k: nat)
    requires Normal(ps) && k < |ps| && a.slot == Some(ps[k].slot)
    ensures ActionProfile(ps, a) == Some(ps[k])
  {
    forall i, j | 0 <= i < j < |ps| ensures ps[i].slot != ps[j].slot {
      assert ps[i].slot == i + 1 && ps[j].slot == j + 1;
    }
    SlotFinds(ps, k);
  }

  lemma {:induction false} ResolvesConnection(t: Snapshot, ref: Reference, c: Connection)
    requires RefersToConnection(ref, c.id) && ConnectionsDistinct(t.connections) && c in t.connections
    ensures ResolveId(t, ref) == Some(c.id)
  {
    LookupConnection(t.connections, c);
  }

  lemma {:induction false} ResolvesPolicy(t: Snapshot, ref: Reference, q: Policy)
    requires RefersToPolicy(ref, q.id) && PoliciesDistinct(t.policies) && q in t.policies
    ensures ResolveId(t, ref) == Some(q.id)
  {
    LookupPolicy(t.policies, q);
  }

  // What each kind of action does, given only the objects it needs.

  lemma {:induction false} ConnectionStepAdvances(
    s: Snapshot, ps: seq<Profile>, d: Option<Device>, bs: seq<Binding>, x: Option<Assignment>, a: PlanAction, k: nat)
    requires Normal(ps) && |bs| == |ps| && k < |ps| && BindsConnection(a, ps[k], bs[k])
    ensures Apply(Progress(s, bs, x, k), a, ps, d) == Ok(Progress(s, bs, x, k + 1))
    ensures Mutating(a.operation) <==> Progress(s, bs, x, k + 1) != Progress(s, bs, x, k)
  {
    ActionFindsProfile(ps, a, k);
    NextConnectionStage(s, bs, k);
  }

  lemma {:induction false} PolicyApplies(
    t: Snapshot, ps: seq<Profile>, d: Option<Device>, b: Binding, p: Profile, a: PlanAction)
    requires BindsPolicy(a, p, b) && ActionProfile(ps, a) == Some(p)
    requires ConnectionsDistinct(t.connections) && b.connection in t.connections
    ensures Apply(t, a, ps, d) == Ok(if b.newPolicy then t.(policies := t.policies + [b.policy]) else t)
    ensures Mutating(a.operation) <==> b.newPolicy
  {
    ResolvesConnection(t, a.dependencies[0], b.connection);
  }

  lemma {:induction false} PolicyProgress(s: Snapshot, bs: seq<Binding>, x: Option<Assignment>, j: nat)
    requires j < |bs|
    ensures var t := Stage(s, bs, |bs|, j, None);
            Progress(s, bs, x, |bs| + j) == t
            && Progress(s, bs, x, |bs| + j + 1)
               == if bs[j].newPolicy then t.(policies := t.policies + [bs[j].policy]) else t
  {
    NextPolicyStage(s, bs, j);
  }

  lemma {:induction false} PolicyStepAdvances(
    s: Snapshot, ps: seq<Profile>, d: Option<Device>, bs: seq<Binding>, x: Option<Assignment>, a: PlanAction, j: nat)
    requires Bound(s, ps, bs) && j < |ps| && BindsPolicy(a, ps[j], bs[j])
    ensures Apply(Progress(s, bs, x, |ps| + j), a, ps, d) == Ok(Progress(s, bs, x, |ps| + j + 1))
    ensures Mutating(a.operation) <==> Progress(s, bs, x, |ps| + j + 1) != Progress(s, bs, x, |ps| + j)
  {
    ActionFindsProfile(ps, a, j);
    EveryStageIsConsistent(s, ps, bs, |bs|, j, None);
    ConnectionPresent(s, ps, bs, |bs|, j);
    PolicyApplies(Stage(s, bs, |bs|, j, None), ps, d, bs[j], ps[j], a);
    PolicyProgress(s, bs, x, j);
  }

  lemma {:induction false} DeviceApplies(
    t: Snapshot, s: Snapshot, ps: seq<Profile>, d: Device, q: Policy, x: Option<Assignment>, a: PlanAction)
    requires BindsDevice(a, s, d, q.id, x)
    requires PoliciesDistinct(t.policies) && q in t.policies
    ensures Apply(t, a, ps, Some(d)) == Ok(if x.Some? then t.(assignments := t.assignments + [x.value]) else t)
    ensures Mutating(a.operation) <==> x.Some?
  {
    ResolvesPolicy(t, a.dependencies[0], q);
  }

  lemma {:induction false} DeviceStepAdvances(
    s: Snapshot, ps: seq<Profile>, d: Device, bs: seq<Binding>, x: Option<Assignment>, a: PlanAction)
    requires Bound(s, ps, bs) && BindsDevice(a, s, d, bs[0].policy.id, x)
    ensures Apply(Progress(s, bs, x, 2 * |ps|), a, ps, Some(d)) == Ok(Progress(s, bs, x, 2 * |ps| + 1))
    ensures Mutating(a.operation) <==> Progress(s, bs, x, 2 * |ps| + 1) != Progress(s, bs, x, 2 * |ps|)
  {
    var t := Stage(s, bs, |bs|, |bs|, None);
    EveryStageIsConsistent(s, ps, bs, |bs|, |bs|, None);
    PolicyPresent(s, ps, bs, |bs|, 0);
    DeviceApplies(t, s, ps, d, bs[0].policy, x, a);
    DeviceProgress(s, bs, x);
  }

  lemma {:induction false} DeviceProgress(s: Snapshot, bs: seq<Binding>, x: Option<Assignment>)
    ensures Progress(s, bs, x, 2 * |bs|) == Stage(s, bs, |bs|, |bs|, None)
    ensures var t := Stage(s, bs, |bs|, |bs|, None);
            Progress(s, bs, x, 2 * |bs| + 1) == if x.Some? then t.(assignments := t.assignments + [x.value]) else t
  {
    assert s.assignments + [] == s.assignments;
  }

  lemma {:induction false} ProgressSettles(s: Snapshot, bs: seq<Binding>, x: Option<Assignment>, k: nat)
    requires k >= 2 * |bs| && (x.None? || k > 2 * |bs|)
    ensures Progress(s, bs, x, k + 1) == Progress(s, bs, x, k)
  {
  }

  lemma {:induction false} VerificationApplies(t: Snapshot, a: PlanAction, ps: seq<Profile>, d: Option<Device>)
    requires a.operation.Verify?
    ensures Apply(t, a, ps, d) == Ok(t) && !Mutating(a.operation)
  {
  }

  lemma {:induction false} PolicyActionAdvances(
    s: Snapshot, ps: seq<Profile>, d: Option<Device>, bs: seq<Binding>, x: Option<Assignment>, a: PlanAction, k: nat)
    requires Bound(s, ps, bs) && |ps| <= k < 2 * |ps| && BindsPolicy(a, ps[k - |ps|], bs[k - |ps|])
    ensures Apply(Progress(s, bs, x, k), a, ps, d) == Ok(Progress(s, bs, x, k + 1))
    ensures Mutating(a.operation) <==> Progress(s, bs, x, k + 1) != Progress(s, bs, x, k)
  {
    PolicyStepAdvances(s, ps, d, bs, x, a, k - |ps|);
  }

  lemma {:induction false} AssignmentActionAdvances(
    s: Snapshot, ps: seq<Profile>, d: Device, bs: seq<Binding>, x: Option<Assignment>, a: PlanAction, k: nat)
    requires Bound(s, ps, bs) && k == 2 * |ps| && BindsDevice(a, s, d, bs[0].policy.id, x)
    ensures Apply(Progress(s, bs, x, k), a, ps, Some(d)) == Ok(Progress(s, bs, x, k + 1))
    ensures Mutating(a.operation) <==> Progress(s, bs, x, k + 1) != Progress(s, bs, x, k)
  {
    DeviceStepAdvances(s, ps, d, bs, x, a);
  }

  lemma {:induction false} VerificationAdvances(
    s: Snapshot, ps: seq<Profile>, d: Option<Device>, bs: seq<Binding>, x: Option<Assignment>, a: PlanAction, k: nat)
    requires k >= 2 * |bs| && (x.None? || k > 2 * |bs|) && IsVerification(a, d)
    ensures Apply(Progress(s, bs, x, k), a, ps, d) == Ok(Progress(s, bs, x, k + 1))
    ensures Mutating(a.operation) <==> Progress(s, bs, x, k + 1) != Progress(s, bs, x, k)
  {
    VerificationApplies(Progress(s, bs, x, k), a, ps, d);
    ProgressSettles(s, bs, x, k);
  }

  /** Action k takes stage k to stage k + 1, and exactly the mutations change the snapshot. */
  lemma {:induction false} StepAdvances(
    s: Snapshot, ps: seq<Profile>, d: Option<Device>, bs: seq<Binding>, x: Option<Assignment>, k: nat, a: PlanAction)
    requires Bound(s, ps, bs) && (x.Some? ==> d.Some?) && Instruction(s, ps, d, bs, x, k, a)
    ensures Apply(Progress(s, bs, x, k), a, ps, d) == Ok(Progress(s, bs, x, k + 1))
    ensures Mutating(a.operation) <==> Progress(s, bs, x, k + 1) != Progress(s, bs, x, k)
  {
    if k < |ps| {
      ConnectionStepAdvances(s, ps, d, bs, x, a, k);
    } else if k < 2 * |ps| {
      PolicyActionAdvances(s, ps, d, bs, x, a, k);
    } else if k == 2 * |ps| && d.Some? {
      AssignmentActionAdvances(s, ps, d.value, bs, x, a, k);
    } else {
      VerificationAdvances(s, ps, d, bs, x, a, k);
    }
  }

  // ---- Verification succeeds at once and keeps succeeding ----

  lemma {:induction false} ProgressIsReached(
    s: Snapshot, ps: seq<Profile>, bs: seq<Binding>, x: Option<Assignment>, k: nat)
    requires Bound(s, ps, bs) && AssignmentFits(s, bs, x)
    ensures Reached(s, Progress(s, bs, x, k))
  {
    EveryStageIsConsistent(s, ps, bs, Min(k, |bs|), Max(0, Min(k - |bs|, |bs|)), if k > 2 * |bs| then x else None);
  }

  /** What the verification of an object action amounts to. */
  predicate ObjectVerified(t: Snapshot, ps: seq<Profile>, d: Option<Device>, a: PlanAction) {
    var profile := ActionProfile(ps, a);
    && (IsConnectionWork(a) ==> profile.Some? && VerifyConnection(t, a, profile.value))
    && (IsPolicyWork(a) ==> profile.Some? && VerifyPolicy(t, a, profile.value))
    && (a.id.AssignmentStep? ==> VerifyAssigned(t, a, d))
  }

  lemma {:induction false} ConnectionVerifies(
    t: Snapshot, ps: seq<Profile>, d: Option<Device>, p: Profile, b: Binding, a: PlanAction)
    requires BindsConnection(a, p, b) && ConnectionEquivalent(b.connection, p) && ActionProfile(ps, a) == Some(p)
    requires ConnectionsDistinct(t.connections) && b.connection in t.connections
    ensures ObjectVerified(t, ps, d, a)
  {
    LookupConnection(t.connections, b.connection);
  }

  lemma {:induction false} PolicyVerifies(
    t: Snapshot, ps: seq<Profile>, d: Option<Device>, p: Profile, b: Binding, a: PlanAction)
    requires BindsPolicy(a, p, b) && PolicyEquivalent(b.policy, b.connection.id) && ActionProfile(ps, a) == Some(p)
    requires ConnectionsDistinct(t.connections) && b.connection in t.connections
    requires PoliciesDistinct(t.policies) && b.policy in t.policies
    ensures ObjectVerified(t, ps, d, a)
  {
    ResolvesConnection(t, a.dependencies[0], b.connection);
    LookupPolicy(t.policies, b.policy);
  }

  predicate MacsDistinct(xs: seq<Assignment>) {
    forall i, j :: 0 <= i < j < |xs| ==> xs[i].mac != xs[j].mac
  }

  lemma {:induction false} DeviceHasAssignment(
    s: Snapshot, d: Device, policyId: string, x: Option<Assignment>, a: PlanAction)
    requires BindsDevice(a, s, d, policyId, x)
    ensures Assignment(d.mac, policyId) in s.assignments + (if x.Some? then [x.value] else [])
  {
    UnassignedDevice(s.assignments, d.mac);
  }

  lemma {:induction false} SoleAssignment(xs: seq<Assignment>, y: Assignment)
    requires MacsDistinct(xs) && y in xs
    ensures exists i :: 0 <= i < |xs| && xs[i].mac == y.mac && xs[i].policyRef == y.policyRef
    ensures forall i, j :: 0 <= i < j < |xs| && xs[i].mac == y.mac ==> xs[j].mac != y.mac
  {
  }

  lemma {:induction false} DeviceVerifies(
    t: Snapshot, s: Snapshot, ps: seq<Profile>, d: Device, q: Policy, x: Option<Assignment>, a: PlanAction)
    requires BindsDevice(a, s, d, q.id, x) && PoliciesDistinct(t.policies) && q in t.policies
             && MacsDistinct(t.assignments)
    requires t.assignments == s.assignments + (if x.Some? then [x.value] else [])
    ensures VerifyAssigned(t, a, Some(d))
    ensures ObjectVerified(t, ps, Some(d), a)
  {
    ResolvesPolicy(t, a.dependencies[0], q);
    DeviceHasAssignment(s, d, q.id, x, a);
    SoleAssignment(t.assignments, Assignment(d.mac, q.id));
  }

  lemma {:induction false} ConnectionStaysVerified(
    s: Snapshot, ps: seq<Profile>, d: Option<Device>, bs: seq<Binding>, x: Option<Assignment>, k: nat, i: nat,
    a: PlanAction)
    requires Bound(s, ps, bs) && AssignmentFits(s, bs, x) && i < k && i < |ps| && BindsConnection(a, ps[i], bs[i])
    ensures ObjectVerified(Progress(s, bs, x, k), ps, d, a)
  {
    ProgressIsDistinct(s, ps, bs, x, k);
    assert Fits(s, ps[i], bs[i]);
    ActionFindsProfile(ps, a, i);
    BoundConnectionPresent(s, ps, bs, x, k, i);
    ConnectionVerifies(Progress(s, bs, x, k), ps, d, ps[i], bs[i], a);
  }

  lemma {:induction false} ProgressIsDistinct(
    s: Snapshot, ps: seq<Profile>, bs: seq<Binding>, x: Option<Assignment>, k: nat)
    requires Bound(s, ps, bs) && AssignmentFits(s, bs, x)
    ensures var t := Progress(s, bs, x, k);
            ConnectionsDistinct(t.connections) && PoliciesDistinct(t.policies) && MacsDistinct(t.assignments)
  {
    ProgressIsReached(s, ps, bs, x, k);
    ConsistentIsDistinct(Progress(s, bs, x, k));
  }

  lemma {:induction false} ConsistentIsDistinct(t: Snapshot)
    requires Consistent(t)
    ensures ConnectionsDistinct(t.connections) && PoliciesDistinct(t.policies) && MacsDistinct(t.assignments)
  {
  }

  lemma {:induction false} BoundConnectionPresent(
    s: Snapshot, ps: seq<Profile>, bs: seq<Binding>, x: Option<Assignment>, k: nat, j: nat)
    requires Bound(s, ps, bs) && j < |ps| && j < k
    ensures bs[j].connection in Progress(s, bs, x, k).connections
  {
    ConnectionPresent(s, ps, bs, Min(k, |ps|), j);
  }

  lemma {:induction false} BoundPolicyPresent(
    s: Snapshot, ps: seq<Profile>, bs: seq<Binding>, x: Option<Assignment>, k: nat, j: nat)
    requires Bound(s, ps, bs) && j < |ps| && |ps| + j < k
    ensures bs[j].policy in Progress(s, bs, x, k).policies
  {
    PolicyPresent(s, ps, bs, Min(k - |ps|, |ps|), j);
  }

  lemma {:induction false} BothPresent(
    s: Snapshot, ps: seq<Profile>, bs: seq<Binding>, x: Option<Assignment>, k: nat, j: nat)
    requires Bound(s, ps, bs) && AssignmentFits(s, bs, x) && j < |ps| && |ps| + j < k
    ensures var t := Progress(s, bs, x, k);
            && ConnectionsDistinct(t.connections) && bs[j].connection in t.connections
            && PoliciesDistinct(t.policies) && bs[j].policy in t.policies
  {
    ProgressIsDistinct(s, ps, bs, x, k);
    BoundConnectionPresent(s, ps, bs, x, k, j);
    BoundPolicyPresent(s, ps, bs, x, k, j);
  }

  lemma {:induction false} PolicyStaysVerified(
    s: Snapshot, ps: seq<Profile>, d: Option<Device>, bs: seq<Binding>, x: Option<Assignment>, k: nat, j: nat,
    a: PlanAction)
    requires Bound(s, ps, bs) && AssignmentFits(s, bs, x) && j < |ps| && |ps| + j < k && BindsPolicy(a, ps[j], bs[j])
    ensures ObjectVerified(Progress(s, bs, x, k), ps, d, a)
  {
    assert Fits(s, ps[j], bs[j]);
    ActionFindsProfile(ps, a, j);
    BothPresent(s, ps, bs, x, k, j);
    PolicyVerifies(Progress(s, bs, x, k), ps, d, ps[j], bs[j], a);
  }

  lemma {:induction false} DeviceStaysVerified(
    s: Snapshot, ps: seq<Profile>, d: Device, bs: seq<Binding>, x: Option<Assignment>, k: nat, a: PlanAction)
    requires Bound(s, ps, bs) && AssignmentFits(s, bs, x) && 2 * |ps| < k && BindsDevice(a, s, d, bs[0].policy.id, x)
    ensures ObjectVerified(Progress(s, bs, x, k), ps, Some(d), a)
  {
    ProgressIsDistinct(s, ps, bs, x, k);
    BoundPolicyPresent(s, ps, bs, x, k, 0);
    DeviceVerifies(Progress(s, bs, x, k), s, ps, d, bs[0].policy, x, a);
  }

  lemma {:induction false} VerificationIsNoObject(t: Snapshot, ps: seq<Profile>, d: Option<Device>, a: PlanAction)
    requires IsVerification(a, d)
    ensures ObjectVerified(t, ps, d, a)
  {
  }

  /** An object action stays verified at every stage from its own on. */
  lemma {:induction false} ObjectStaysVerified(
    s: Snapshot, ps: seq<Profile>, d: Option<Device>, bs: seq<Binding>, x: Option<Assignment>, k: nat, i: nat,
    a: PlanAction)
    requires Bound(s, ps, bs) && AssignmentFits(s, bs, x) && i < k && Instruction(s, ps, d, bs, x, i, a)
    ensures ObjectVerified(Progress(s, bs, x, k), ps, d, a)
  {
    if i < |ps| {
      ConnectionStaysVerified(s, ps, d, bs, x, k, i, a);
    } else if i < 2 * |ps| {
      PolicyStaysVerified(s, ps, d, bs, x, k, i - |ps|, a);
    } else if i == 2 * |ps| && d.Some? {
      DeviceStaysVerified(s, ps, d.value, bs, x, k, a);
    } else {
      VerificationIsNoObject(Progress(s, bs, x, k), ps, d, a);
    }
  }
}
