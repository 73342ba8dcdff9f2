/** Executing and checking plan actions on a snapshot (scripts/routerkit_netcraze_plan.py:1811-2045). */
module PlanExecution {
  import opened Wrappers
  import opened PlanModel
  import opened PlanBuilder
  import Mac

  /** The id of the object a reference resolves to, if that object is present. */
  function ResolveId(t: Snapshot, ref: Reference): Option<string> {
    match ref.kind
    case ExistingConnection =>
      if ref.value.Some? && FindConnection(t.connections, ref.value.value).Some? then ref.value else None
    case PlannedConnection =>
      var id := SimulatedConnectionId(ref.slot.GetOr(0));
      if FindConnection(t.connections, id).Some? then Some(id) else None
    case ExistingPolicy => if ref.value.Some? && FindPolicy(t.policies, ref.value.value).Some? then ref.value else None
    case PlannedPolicy =>
      var id := SimulatedPolicyId(ref.slot.GetOr(0));
      if FindPolicy(t.policies, id).Some? then Some(id) else None
  }

  function ProfileBySlot(ps: seq<Profile>, slot: int): Option<Profile> {
    if ps == [] then None
    else if ps[|ps| - 1].slot == slot then Some(ps[|ps| - 1])
    else ProfileBySlot(ps[..|ps| - 1], slot)
  }

  lemma {:induction false} SlotFinds(ps: seq<Profile>, k: nat)
    requires k < |ps| && forall i, j :: 0 <= i < j < |ps| ==> ps[i].slot != ps[j].slot
    ensures ProfileBySlot(ps, ps[k].slot) == Some(ps[k])
  {
    if k < |ps| - 1 {
      SlotFinds(ps[..|ps| - 1], k);
    }
  }

  function ActionProfile(ps: seq<Profile>, a: PlanAction): Option<Profile> {
    if a.slot.None? then None else ProfileBySlot(ps, a.slot.value)
  }

  function CreatedConnection(p: Profile, target: Name): Connection {
    Connection(SimulatedConnectionId(p.slot), target, p.protocol, p.host, p.port, p.authMode, p.enabled, true)
  }

  function CreatedPolicy(p: Profile, target: Name, connectionRef: string): Policy {
    Policy(SimulatedPolicyId(p.slot), target, connectionRef, PROXY_ONLY, false, true, false)
  }

  datatype StepError = UnresolvedDependency

  /** One simulated action; only the three mutations change the snapshot, and only by appending. */
  function Apply(t: Snapshot, a: PlanAction, ps: seq<Profile>, d: Option<Device>): Result<Snapshot, StepError> {
    var profile := ActionProfile(ps, a);
    if a.operation.CreateConnection? && profile.Some? then
      Ok(t.(connections := t.connections + [CreatedConnection(profile.value, a.target)]))
    else if a.operation.CreatePolicy? && profile.Some? then
      if |a.dependencies| != 1 || ResolveId(t, a.dependencies[0]).None? then Err(UnresolvedDependency)
      else
        var ref := ResolveId(t, a.dependencies[0]).value;
        Ok(t.(policies := t.policies + [CreatedPolicy(profile.value, a.target, ref)]))
    else if a.operation.AssignDevice? && d.Some? then
      if |a.dependencies| != 1 || ResolveId(t, a.dependencies[0]).None? then Err(UnresolvedDependency)
      else
        var ref := ResolveId(t, a.dependencies[0]).value;
        Ok(t.(assignments := t.assignments + [Assignment(d.value.mac, ref)]))
    else Ok(t)
  }

  predicate VerifyConnection(t: Snapshot, a: PlanAction, p: Profile) {
    var id := if a.operation.CreateConnection? then Some(SimulatedConnectionId(p.slot)) else a.observedId;
    var name := if a.operation.CreateConnection? then Some(a.target) else a.observedName;
    && id.Some? && FindConnection(t.connections, id.value).Some?
    && name.Some?
    && var c := FindConnection(t.connections, id.value).value;
       c.name.text == name.value.text && ConnectionEquivalent(c, p)
  }

  predicate VerifyPolicy(t: Snapshot, a: PlanAction, p: Profile) {
    && |a.dependencies| == 1 && ResolveId(t, a.dependencies[0]).Some?
    && var id := if a.operation.CreatePolicy? then Some(SimulatedPolicyId(p.slot)) else a.observedId;
       var name := if a.operation.CreatePolicy? then Some(a.target) else a.observedName;
       && id.Some? && FindPolicy(t.policies, id.value).Some?
       && name.Some?
       && var q := FindPolicy(t.policies, id.value).value;
          q.name.text == name.value.text && PolicyEquivalent(q, ResolveId(t, a.dependencies[0]).value)
  }

  predicate VerifyAssigned(t: Snapshot, a: PlanAction, d: Option<Device>) {
    && d.Some? && |a.dependencies| == 1 && ResolveId(t, a.dependencies[0]).Some?
    && (exists i :: 0 <= i < |t.assignments| && t.assignments[i].mac == d.value.mac
                    && t.assignments[i].policyRef == ResolveId(t, a.dependencies[0]).value)
    && (forall i, j :: 0 <= i < j < |t.assignments| && t.assignments[i].mac == d.value.mac
                       ==> t.assignments[j].mac != d.value.mac)
  }

  predicate IsConnectionWork(a: PlanAction) {
    a.operation.CreateConnection? || a.operation.ReuseConnection?
  }

  predicate IsPolicyWork(a: PlanAction) {
    a.operation.CreatePolicy? || a.operation.ReusePolicy?
  }

  predicate IsAssignmentWork(a: PlanAction) {
    a.operation.AssignDevice? || a.operation.ReuseAssignment?
  }

  /** Does the snapshot show what the action promised? A slot without a profile shows nothing. */
  predicate Verified(t: Snapshot, a: PlanAction, plan: ChangePlan)
    requires Consistent(t)
  {
    var profile := ActionProfile(plan.desired, a);
    if IsConnectionWork(a) then profile.Some? && VerifyConnection(t, a, profile.value)
    else if IsPolicyWork(a) then profile.Some? && VerifyPolicy(t, a, profile.value)
    else if IsAssignmentWork(a) then VerifyAssigned(t, a, plan.device)
    else match a.id
      case VerifyConnections =>
        forall b :: b in plan.actions && IsConnectionWork(b) ==>
          ActionProfile(plan.desired, b).Some? && VerifyConnection(t, b, ActionProfile(plan.desired, b).value)
      case VerifyPolicies =>
        forall b :: b in plan.actions && IsPolicyWork(b) ==>
          ActionProfile(plan.desired, b).Some? && VerifyPolicy(t, b, ActionProfile(plan.desired, b).value)
      case VerifyAssignment =>
        forall b :: b in plan.actions && b.id.AssignmentStep? ==> VerifyAssigned(t, b, plan.device)
      case VerifyDefault => DefaultProjection(t) == plan.sourceDefault
      case _ => false
  }

  /** The snapshot after the first k actions; an action that cannot be applied leaves it alone. */
  function Run(s: Snapshot, plan: ChangePlan, k: nat): Snapshot
    requires k <= |plan.actions|
  {
    if k == 0 then s
    else
      var before := Run(s, plan, k - 1);
      var step := Apply(before, plan.actions[k - 1], plan.desired, plan.device);
      if step.Ok? then step.value else before
  }

  // ---- Appending one object keeps a snapshot consistent ----

  lemma {:induction false} FindAppendedConnection(cs: seq<Connection>, c: Connection, id: string)
    ensures FindConnection(cs + [c], id) ==
            if FindConnection(cs, id).Some? then FindConnection(cs, id) else if c.id == id then Some(c) else None
  {
    if cs != [] {
      FindAppendedConnection(cs[1..], c, id);
      assert (cs + [c])[1..] == cs[1..] + [c];
    }
  }

  lemma {:induction false} FindAppendedPolicy(qs: seq<Policy>, q: Policy, id: string)
    ensures FindPolicy(qs + [q], id) ==
            if FindPolicy(qs, id).Some? then FindPolicy(qs, id) else if q.id == id then Some(q) else None
  {
    if qs != [] {
      FindAppendedPolicy(qs[1..], q, id);
      assert (qs + [q])[1..] == qs[1..] + [q];
    }
  }

  lemma {:induction false} DefaultsIgnoreAppended(qs: seq<Policy>, q: Policy)
    requires !q.isDefault
    ensures ObservedDefaults(qs + [q]) == ObservedDefaults(qs)
  {
    if qs != [] {
      DefaultsIgnoreAppended(qs[1..], q);
      assert (qs + [q])[1..] == qs[1..] + [q];
    }
  }

  lemma {:induction false} AppendConnection(t: Snapshot, c: Connection)
    requires Consistent(t)
    requires forall x :: x in t.connections ==> x.id != c.id && x.name.folded != c.name.folded
    ensures var u := t.(connections := t.connections + [c]);
            Consistent(u) && DefaultProjection(u) == DefaultProjection(t)
  {
    var u := t.(connections := t.connections + [c]);
    forall q | q in u.policies
      ensures FindConnection(u.connections, q.connectionRef) == FindConnection(t.connections, q.connectionRef)
    {
      FindAppendedConnection(t.connections, c, q.connectionRef);
    }
    forall q | q in u.policies ensures FindConnection(u.connections, q.connectionRef).Some? {
    }
    if t.defaultStatus.Known? {
      FoundPolicy(t.policies, t.defaultRef.GetOr(""));
    }
    assert ConnectionsDistinct(u.connections);
  }

  lemma {:induction false} AppendPolicy(t: Snapshot, q: Policy)
    requires Consistent(t)
    requires forall x :: x in t.policies ==> x.id != q.id && x.name.folded != q.name.folded
    requires FindConnection(t.connections, q.connectionRef).Some? && !q.isDefault
    ensures var u := t.(policies := t.policies + [q]);
            Consistent(u) && DefaultProjection(u) == DefaultProjection(t)
  {
    var u := t.(policies := t.policies + [q]);
    forall id ensures FindPolicy(t.policies, id).Some? ==> FindPolicy(u.policies, id) == FindPolicy(t.policies, id) {
      FindAppendedPolicy(t.policies, q, id);
    }
    DefaultsIgnoreAppended(t.policies, q);
    assert PoliciesDistinct(u.policies);
    assert AssignmentsConsistent(u.assignments, u.policies);
  }

  lemma {:induction false} AppendAssignment(t: Snapshot, x: Assignment)
    requires Consistent(t)
    requires forall y :: y in t.assignments ==> y.mac != x.mac
    requires Mac.NormalizeMac(x.mac) == Some(x.mac) && FindPolicy(t.policies, x.policyRef).Some?
    ensures var u := t.(assignments := t.assignments + [x]);
            Consistent(u) && DefaultProjection(u) == DefaultProjection(t)
  {
    var u := t.(assignments := t.assignments + [x]);
    assert AssignmentsConsistent(u.assignments, u.policies);
  }
}
