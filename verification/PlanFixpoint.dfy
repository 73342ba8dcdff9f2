/** An unblocked plan runs to the end, and the planner finds nothing left to do. */
module PlanFixpoint {
  import opened Wrappers
  import opened PlanModel
  import opened PlanBuilder
  import opened Sets
  import opened PlanExecution
  import opened PlanBindings
  import opened PlanStages
  import opened PlanRuns
  import Mac

  /** A normalised request whose plan is not blocked. */
  ghost predicate Unblocked(s: Snapshot, ps: seq<Profile>, d: Option<Device>) {
    Normal(ps) && NormalDevice(d) && Consistent(s) && !PlanBlocked(s, ps, d)
  }

  /** The assignment an unblocked plan adds, if it adds one. */
  ghost function NewAssignment(s: Snapshot, ps: seq<Profile>, d: Option<Device>): Option<Assignment>
    requires ps != []
  {
    if d.Some? && AssignmentChoiceFor(s, ps[0], d.value).Assign?
    then Some(Assignment(d.value.mac, BoundPolicy(s, ps[0]).id)) else None
  }

  // ---- The rendered actions carry out the bindings ----

  lemma {:induction false} ConnectionActionBinds(s: Snapshot, p: Profile)
    requires !ConnectionChoice(s, p).Refuse?
    ensures BindsConnection(ConnectionAction(s, p, ConnectionChoice(s, p)), p, BindingOf(s, p))
  {
  }

  lemma {:induction false} ConnectionReferenceRefers(s: Snapshot, p: Profile)
    requires !ConnectionChoice(s, p).Refuse?
    ensures ReferenceAt(s, p).Some? && RefersToConnection(ReferenceAt(s, p).value, BoundConnection(s, p).id)
  {
  }

  lemma {:induction false} PolicyReferenceRefers(s: Snapshot, p: Profile)
    requires !PolicyChoiceFor(s, p).Refuse?
    ensures PolicyReferenceAt(s, p).Some? && RefersToPolicy(PolicyReferenceAt(s, p).value, BoundPolicy(s, p).id)
  {
  }

  lemma {:induction false} PolicyActionBinds(s: Snapshot, p: Profile)
    requires !ConnectionChoice(s, p).Refuse? && !PolicyChoiceFor(s, p).Refuse?
    ensures BindsPolicy(PolicyAction(s, p, ReferenceAt(s, p), PolicyChoiceFor(s, p)), p, BindingOf(s, p))
  {
    ConnectionReferenceRefers(s, p);
  }

  lemma {:induction false} KeptAssignment(s: Snapshot, p: Profile, d: Device)
    requires !PolicyChoiceFor(s, p).Refuse? && AssignmentChoiceFor(s, p, d).Keep?
    ensures FindAssignment(s.assignments, d.mac) == Some(Assignment(d.mac, BoundPolicy(s, p).id))
  {
    UnassignedDevice(s.assignments, d.mac);
    PolicyReferenceRefers(s, p);
  }

  lemma {:induction false} AssignmentActionBinds(s: Snapshot, ps: seq<Profile>, d: Device)
    requires ps != [] && !PolicyChoiceFor(s, ps[0]).Refuse? && !AssignmentChoiceFor(s, ps[0], d).RefuseAssignment?
    ensures var ref := PolicyReferenceAt(s, ps[0]);
            BindsDevice(AssignmentAction(s, ps[0], d, ref, AssignmentChoiceFor(s, ps[0], d)), s, d,
                        BoundPolicy(s, ps[0]).id, NewAssignment(s, ps, Some(d)))
  {
    PolicyReferenceRefers(s, ps[0]);
    if AssignmentChoiceFor(s, ps[0], d).Keep? {
      KeptAssignment(s, ps[0], d);
    }
  }

  lemma {:induction false} VerificationActionsVerify(s: Snapshot, d: Option<Device>, k: nat)
    requires k < |VerificationActions(s, d, true)|
    ensures IsVerification(VerificationActions(s, d, true)[k], d)
  {
  }

  /** Position k of the rendered actions, segment by segment. */
  lemma {:induction false} ActionAtPosition(s: Snapshot, ps: seq<Profile>, d: Option<Device>, k: nat)
    requires ps != [] && k < |ObjectActions(s, ps, d) + VerificationActions(s, d, true)|
    ensures var n, a := |ps|, (ObjectActions(s, ps, d) + VerificationActions(s, d, true))[k];
            if k < n then a == ConnectionAction(s, ps[k], ConnectionChoice(s, ps[k]))
            else if k < 2 * n then a == PolicyActions(s, ps)[k - n]
            else if k == 2 * n && d.Some? then a == AssignmentActions(s, ps, d)[0]
            else 0 <= k - ObjectCount(n, d) < |VerificationActions(s, d, true)|
                 && a == VerificationActions(s, d, true)[k - ObjectCount(n, d)]
  {
  }

  lemma {:induction false} ChosenActionsAreInstructions(s: Snapshot, ps: seq<Profile>, d: Option<Device>, k: nat)
    requires Normal(ps) && AllChosen(s, ps, d)
    requires k < |ObjectActions(s, ps, d) + VerificationActions(s, d, true)|
    ensures Instruction(s, ps, d, BindingsOf(s, ps), NewAssignment(s, ps, d), k,
                        (ObjectActions(s, ps, d) + VerificationActions(s, d, true))[k])
  {
    var n := |ps|;
    ActionAtPosition(s, ps, d, k);
    if k < n {
      assert ps[k] in ps;
      ConnectionActionBinds(s, ps[k]);
    } else if k < 2 * n {
      assert ps[k - n] in ps;
      PolicyActionBinds(s, ps[k - n]);
    } else if k == 2 * n && d.Some? {
      assert ps[0] in ps;
      AssignmentActionBinds(s, ps, d.value);
    } else {
      VerificationActionsVerify(s, d, k - ObjectCount(n, d));
    }
  }

  lemma {:induction false} AssignChosen(s: Snapshot, d: Device, ref: Option<Reference>)
    requires ChooseAssignment(s, d, ref).Assign?
    ensures FindAssignment(s.assignments, d.mac).None?
  {
  }

  lemma {:induction false} NewAssignmentFits(s: Snapshot, ps: seq<Profile>, d: Option<Device>)
    requires ps != [] && (d.Some? ==> Mac.NormalizeMac(d.value.mac) == Some(d.value.mac))
    ensures AssignmentFits(s, BindingsOf(s, ps), NewAssignment(s, ps, d))
  {
    if d.Some? && AssignmentChoiceFor(s, ps[0], d.value).Assign? {
      AssignChosen(s, d.value, PolicyReferenceAt(s, ps[0]));
    }
  }

  lemma {:induction false} DeviceFits(s: Snapshot, ps: seq<Profile>, d: Option<Device>)
    requires ps != [] && NormalDevice(d)
    ensures AssignmentFits(s, BindingsOf(s, ps), NewAssignment(s, ps, d))
  {
    if d.Some? {
      NormalDeviceMac(d.value);
    }
    NewAssignmentFits(s, ps, d);
  }

  lemma {:induction false} UnblockedPlanEnacts(s: Snapshot, ps: seq<Profile>, d: Option<Device>)
    requires Unblocked(s, ps, d)
    ensures Enacts(PlanFor(s, ps, d), s, ps, d, BindingsOf(s, ps), NewAssignment(s, ps, d))
  {
    var plan := PlanFor(s, ps, d);
    ChoicesBind(s, ps, d);
    DeviceFits(s, ps, d);
    forall k | 0 <= k < |plan.actions|
      ensures Instruction(s, ps, d, BindingsOf(s, ps), NewAssignment(s, ps, d), k, plan.actions[k])
    {
      ChosenActionsAreInstructions(s, ps, d, k);
    }
  }

  // ---- A fault-free run ----

  /** One step applies, keeps every invariant, passes its verification, and mutates exactly when it should. */
  ghost predicate StepSucceeds(plan: ChangePlan, s: Snapshot, t: Snapshot, a: PlanAction, u: Snapshot)
    requires Consistent(s)
  {
    && Apply(t, a, plan.desired, plan.device) == Ok(u)
    && Reached(s, u) && Verified(u, a, plan)
    && (Mutating(a.operation) <==> u != t)
  }

  ghost predicate StepAt(plan: ChangePlan, s: Snapshot, tr: seq<Snapshot>, k: nat)
    requires Consistent(s) && |tr| == |plan.actions| + 1 && k < |plan.actions|
  {
    StepSucceeds(plan, s, tr[k], plan.actions[k], tr[k + 1])
  }

  ghost predicate Trace(plan: ChangePlan, s: Snapshot, tr: seq<Snapshot>) {
    && Consistent(s) && |tr| == |plan.actions| + 1 && tr[0] == s
    && forall k {:trigger StepAt(plan, s, tr, k)} :: 0 <= k < |plan.actions| ==> StepAt(plan, s, tr, k)
  }

  lemma {:induction false} AllObjectsVerified(
    plan: ChangePlan, s: Snapshot, ps: seq<Profile>, d: Option<Device>, bs: seq<Binding>, x: Option<Assignment>, k: nat,
    i: nat)
    requires Enacts(plan, s, ps, d, bs, x) && i < |plan.actions| && ObjectCount(|ps|, d) <= k
    ensures ObjectVerified(Progress(s, bs, x, k), ps, d, plan.actions[i])
  {
    assert Instruction(s, ps, d, bs, x, i, plan.actions[i]);
    if i < ObjectCount(|ps|, d) {
      ObjectStaysVerified(s, ps, d, bs, x, k, i, plan.actions[i]);
    } else {
      VerificationIsNoObject(Progress(s, bs, x, k), ps, d, plan.actions[i]);
    }
  }

  lemma {:induction false} VerifiedFromObjects(t: Snapshot, plan: ChangePlan, a: PlanAction)
    requires Consistent(t) && ObjectVerified(t, plan.desired, plan.device, a)
    requires IsConnectionWork(a) || IsPolicyWork(a) || (IsAssignmentWork(a) && a.id.AssignmentStep?)
    ensures Verified(t, a, plan)
  {
  }

  lemma {:induction false} VerifiedByVerification(t: Snapshot, plan: ChangePlan, a: PlanAction)
    requires Consistent(t) && IsVerification(a, plan.device) && DefaultProjection(t) == plan.sourceDefault
    requires forall b :: b in plan.actions ==> ObjectVerified(t, plan.desired, plan.device, b)
    ensures Verified(t, a, plan)
  {
  }

  lemma {:induction false} InstructionIsObject(
    s: Snapshot, ps: seq<Profile>, d: Option<Device>, bs: seq<Binding>, x: Option<Assignment>, k: nat, a: PlanAction)
    requires |bs| == |ps| > 0 && k < ObjectCount(|ps|, d) && Instruction(s, ps, d, bs, x, k, a)
    ensures IsConnectionWork(a) || IsPolicyWork(a) || (IsAssignmentWork(a) && a.id.AssignmentStep?)
  {
  }

  lemma {:induction false} EveryObjectVerified(
    plan: ChangePlan, s: Snapshot, ps: seq<Profile>, d: Option<Device>, bs: seq<Binding>, x: Option<Assignment>, k: nat)
    requires Enacts(plan, s, ps, d, bs, x) && ObjectCount(|ps|, d) <= k
    ensures forall b :: b in plan.actions ==> ObjectVerified(Progress(s, bs, x, k), ps, d, b)
  {
    forall b | b in plan.actions ensures ObjectVerified(Progress(s, bs, x, k), ps, d, b) {
      var i :| 0 <= i < |plan.actions| && plan.actions[i] == b;
      AllObjectsVerified(plan, s, ps, d, bs, x, k, i);
    }
  }

  lemma {:induction false} StepVerifies(
    plan: ChangePlan, s: Snapshot, ps: seq<Profile>, d: Option<Device>, bs: seq<Binding>, x: Option<Assignment>, k: nat)
    requires Enacts(plan, s, ps, d, bs, x) && k < |plan.actions|
    ensures Reached(s, Progress(s, bs, x, k + 1)) && Verified(Progress(s, bs, x, k + 1), plan.actions[k], plan)
  {
    ProgressIsReached(s, ps, bs, x, k + 1);
    if k < ObjectCount(|ps|, d) {
      ObjectStepVerifies(plan, s, ps, d, bs, x, k);
    } else {
      EveryObjectVerified(plan, s, ps, d, bs, x, k + 1);
      assert Instruction(s, ps, d, bs, x, k, plan.actions[k]);
      VerifiedByVerification(Progress(s, bs, x, k + 1), plan, plan.actions[k]);
    }
  }

  lemma {:induction false} ObjectStepVerifies(
    plan: ChangePlan, s: Snapshot, ps: seq<Profile>, d: Option<Device>, bs: seq<Binding>, x: Option<Assignment>, k: nat)
    requires Enacts(plan, s, ps, d, bs, x) && k < |plan.actions| && k < ObjectCount(|ps|, d)
    requires Consistent(Progress(s, bs, x, k + 1))
    ensures Verified(Progress(s, bs, x, k + 1), plan.actions[k], plan)
  {
    assert Instruction(s, ps, d, bs, x, k, plan.actions[k]);
    ObjectStaysVerified(s, ps, d, bs, x, k + 1, k, plan.actions[k]);
    InstructionIsObject(s, ps, d, bs, x, k, plan.actions[k]);
    VerifiedFromObjects(Progress(s, bs, x, k + 1), plan, plan.actions[k]);
  }

  lemma {:induction false} EnactedStepSucceeds(
    plan: ChangePlan, s: Snapshot, ps: seq<Profile>, d: Option<Device>, bs: seq<Binding>, x: Option<Assignment>, k: nat)
    requires Enacts(plan, s, ps, d, bs, x) && k < |plan.actions|
    ensures StepSucceeds(plan, s, Progress(s, bs, x, k), plan.actions[k], Progress(s, bs, x, k + 1))
  {
    assert Instruction(s, ps, d, bs, x, k, plan.actions[k]);
    StepAdvances(s, ps, d, bs, x, k, plan.actions[k]);
    StepVerifies(plan, s, ps, d, bs, x, k);
  }

  ghost function TraceOf(s: Snapshot, bs: seq<Binding>, x: Option<Assignment>, length: nat): (tr: seq<Snapshot>)
    ensures |tr| == length
  {
    seq(length, k requires 0 <= k => Progress(s, bs, x, k))
  }

  lemma {:induction false} StepOnTrace(
    plan: ChangePlan, s: Snapshot, bs: seq<Binding>, x: Option<Assignment>, k: nat)
    requires Consistent(s) && k < |plan.actions|
    requires StepSucceeds(plan, s, Progress(s, bs, x, k), plan.actions[k], Progress(s, bs, x, k + 1))
    ensures StepAt(plan, s, TraceOf(s, bs, x, |plan.actions| + 1), k)
  {
  }

  lemma {:induction false} ProgressStartsAtSource(s: Snapshot, bs: seq<Binding>, x: Option<Assignment>)
    ensures Progress(s, bs, x, 0) == s
  {
    assert bs[..0] == [];
    assert s.connections + [] == s.connections && s.policies + [] == s.policies && s.assignments + [] == s.assignments;
  }

  lemma {:induction false} TraceStep(
    plan: ChangePlan, s: Snapshot, ps: seq<Profile>, d: Option<Device>, bs: seq<Binding>, x: Option<Assignment>,
    tr: seq<Snapshot>, k: nat)
    requires Enacts(plan, s, ps, d, bs, x) && tr == TraceOf(s, bs, x, |plan.actions| + 1) && k < |plan.actions|
    ensures StepAt(plan, s, tr, k)
  {
    EnactedStepSucceeds(plan, s, ps, d, bs, x, k);
    StepOnTrace(plan, s, bs, x, k);
  }

  lemma {:induction false} TraceSteps(
    plan: ChangePlan, s: Snapshot, ps: seq<Profile>, d: Option<Device>, bs: seq<Binding>, x: Option<Assignment>,
    tr: seq<Snapshot>)
    requires Enacts(plan, s, ps, d, bs, x) && tr == TraceOf(s, bs, x, |plan.actions| + 1)
    ensures forall k {:trigger StepAt(plan, s, tr, k)} :: 0 <= k < |plan.actions| ==> StepAt(plan, s, tr, k)
  {
    forall k | 0 <= k < |plan.actions| ensures StepAt(plan, s, tr, k) {
      TraceStep(plan, s, ps, d, bs, x, tr, k);
    }
  }

  lemma {:induction false} EnactedPlanRuns(
    plan: ChangePlan, s: Snapshot, ps: seq<Profile>, d: Option<Device>, bs: seq<Binding>, x: Option<Assignment>,
    tr: seq<Snapshot>)
    requires Enacts(plan, s, ps, d, bs, x) && tr == TraceOf(s, bs, x, |plan.actions| + 1)
    ensures Trace(plan, s, tr)
  {
    TraceSteps(plan, s, ps, d, bs, x, tr);
    ProgressStartsAtSource(s, bs, x);
  }

  /** The snapshots an unblocked plan passes through, the observed one first. */
  ghost function PlanTrace(s: Snapshot, ps: seq<Profile>, d: Option<Device>): (tr: seq<Snapshot>)
    requires ps != [] && Consistent(s)
  {
    TraceOf(s, BindingsOf(s, ps), NewAssignment(s, ps, d), |PlanFor(s, ps, d).actions| + 1)
  }

  /** Every unblocked plan has a fault-free run: no dependency, consistency or verification error can occur. */
  lemma {:induction false} UnblockedPlanRuns(s: Snapshot, ps: seq<Profile>, d: Option<Device>)
    requires Unblocked(s, ps, d)
    ensures Trace(PlanFor(s, ps, d), s, PlanTrace(s, ps, d))
  {
    UnblockedPlanEnacts(s, ps, d);
    EnactedPlanRuns(PlanFor(s, ps, d), s, ps, d, BindingsOf(s, ps), NewAssignment(s, ps, d), PlanTrace(s, ps, d));
  }

  // ---- Replanning the final state ----

  /** The state an unblocked plan leads to. */
  ghost function PlannedState(s: Snapshot, ps: seq<Profile>, d: Option<Device>): Snapshot
    requires ps != []
  {
    var bs := BindingsOf(s, ps);
    Stage(s, bs, |bs|, |bs|, NewAssignment(s, ps, d))
  }

  lemma {:induction false} SamePort(ps: seq<Profile>, k: nat, l: nat)
    requires Normal(ps) && k < |ps| && l < |ps| && ps[k].port == ps[l].port
    ensures k == l
  {
  }

  lemma {:induction false} FinalConnectionChoice(
    s: Snapshot, ps: seq<Profile>, bs: seq<Binding>, x: Option<Assignment>, k: nat)
    requires Bound(s, ps, bs) && k < |ps|
    ensures ConnectionChoice(Stage(s, bs, |bs|, |bs|, x), ps[k]) == Reuse(bs[k].connection)
  {
    var t := Stage(s, bs, |bs|, |bs|, x);
    var exact := ExactConnections(t, ps[k]);
    ConnectionPresent(s, ps, bs, |bs|, k);
    assert Fits(s, ps[k], bs[k]);
    assert bs[..|bs|] == bs;
    forall c | c in exact ensures c == bs[k].connection {
      if c !in s.connections {
        NewConnectionMembers(bs, c);
        var l :| 0 <= l < |bs| && c == bs[l].connection;
        assert Fits(s, ps[l], bs[l]);
        SamePort(ps, k, l);
      }
    }
    SingletonPick(exact, bs[k].connection);
  }

  lemma {:induction false} BoundIdsDiffer(s: Snapshot, ps: seq<Profile>, bs: seq<Binding>, k: nat, l: nat)
    requires Bound(s, ps, bs) && k < |ps| && l < |ps| && bs[k].connection.id == bs[l].connection.id
    ensures k == l
  {
    assert k < l ==> Apart(bs[k], bs[l]);
    assert l < k ==> Apart(bs[l], bs[k]);
  }

  lemma {:induction false} FinalPolicyChoice(
    s: Snapshot, ps: seq<Profile>, bs: seq<Binding>, x: Option<Assignment>, k: nat)
    requires Bound(s, ps, bs) && k < |ps|
    ensures PolicyChoice(Stage(s, bs, |bs|, |bs|, x), ps[k],
                         Some(ExistingReference(ExistingConnection, bs[k].connection.id))) == Reuse(bs[k].policy)
  {
    var t := Stage(s, bs, |bs|, |bs|, x);
    var exact := ExactPolicies(t, ExistingReference(ExistingConnection, bs[k].connection.id));
    PolicyPresent(s, ps, bs, |bs|, k);
    assert Fits(s, ps[k], bs[k]);
    assert bs[..|bs|] == bs;
    forall q | q in exact ensures q == bs[k].policy {
      if q !in s.policies {
        NewPolicyMembers(bs, q);
        var l :| 0 <= l < |bs| && q == bs[l].policy;
        assert Fits(s, ps[l], bs[l]);
        BoundIdsDiffer(s, ps, bs, k, l);
      }
    }
    SingletonPick(exact, bs[k].policy);
  }

  lemma {:induction false} FinalChoices(s: Snapshot, ps: seq<Profile>, bs: seq<Binding>, x: Option<Assignment>, k: nat)
    requires Bound(s, ps, bs) && k < |ps|
    ensures var t := Stage(s, bs, |bs|, |bs|, x);
            && ConnectionChoice(t, ps[k]) == Reuse(bs[k].connection)
            && PolicyChoiceFor(t, ps[k]) == Reuse(bs[k].policy)
  {
    FinalConnectionChoice(s, ps, bs, x, k);
    FinalPolicyChoice(s, ps, bs, x, k);
  }

  lemma {:induction false} FindAppendedAssignment(xs: seq<Assignment>, y: Assignment, mac: string)
    ensures FindAssignment(xs + [y], mac) ==
            if FindAssignment(xs, mac).Some? then FindAssignment(xs, mac) else if y.mac == mac then Some(y) else None
  {
    if xs != [] {
      FindAppendedAssignment(xs[1..], y, mac);
      assert (xs + [y])[1..] == xs[1..] + [y];
    }
  }

  lemma {:induction false} KeepChosen(t: Snapshot, d: Device, q: Policy)
    requires FindAssignment(t.assignments, d.mac) == Some(Assignment(d.mac, q.id))
    ensures ChooseAssignment(t, d, Some(ExistingReference(ExistingPolicy, q.id))).Keep?
  {
  }

  lemma {:induction false} PlannedAssignment(s: Snapshot, ps: seq<Profile>, d: Device)
    requires ps != [] && !PolicyChoiceFor(s, ps[0]).Refuse? && !AssignmentChoiceFor(s, ps[0], d).RefuseAssignment?
    ensures FindAssignment(PlannedState(s, ps, Some(d)).assignments, d.mac)
            == Some(Assignment(d.mac, BoundPolicy(s, ps[0]).id))
  {
    var x := NewAssignment(s, ps, Some(d));
    if x.Some? {
      FindAppendedAssignment(s.assignments, x.value, d.mac);
    } else {
      KeptAssignment(s, ps[0], d);
      assert PlannedState(s, ps, Some(d)).assignments == s.assignments;
    }
  }

  lemma {:induction false} FinalAssignmentChoice(s: Snapshot, ps: seq<Profile>, d: Device)
    requires Bound(s, ps, BindingsOf(s, ps)) && AllChosen(s, ps, Some(d))
    ensures AssignmentChoiceFor(PlannedState(s, ps, Some(d)), ps[0], d).Keep?
  {
    FinalChoices(s, ps, BindingsOf(s, ps), NewAssignment(s, ps, Some(d)), 0);
    assert ps[0] in ps;
    PlannedAssignment(s, ps, d);
    KeepChosen(PlannedState(s, ps, Some(d)), d, BoundPolicy(s, ps[0]));
  }

  predicate ReuseOnly(a: PlanAction) {
    a.operation.ReuseConnection? || a.operation.ReusePolicy? || a.operation.ReuseAssignment? || a.operation.Verify?
  }

  lemma {:induction false} ReusedObjectActions(t: Snapshot, ps: seq<Profile>, d: Option<Device>)
    requires ps != []
    requires forall p :: p in ps ==> ConnectionChoice(t, p).Reuse? && PolicyChoiceFor(t, p).Reuse?
    requires d.Some? ==> AssignmentChoiceFor(t, ps[0], d.value).Keep?
    ensures forall a :: a in ObjectActions(t, ps, d) ==> ReuseOnly(a)
  {
    forall a | a in ConnectionActions(t, ps) ensures ReuseOnly(a) {
      var i :| 0 <= i < |ps| && ConnectionActions(t, ps)[i] == a;
      assert ps[i] in ps;
    }
    forall a | a in PolicyActions(t, ps) ensures ReuseOnly(a) {
      var i :| 0 <= i < |ps| && PolicyActions(t, ps)[i] == a;
      assert ps[i] in ps;
    }
  }

  lemma {:induction false} ReuseAvoidsEverything(actions: seq<PlanAction>, q: Policy, c: Connection)
    requires forall a :: a in actions ==> ReuseOnly(a)
    ensures AllAvoid(actions, q, c)
  {
    if actions != [] {
      assert actions[0] in actions;
      ReuseAvoidsEverything(actions[1..], q, c);
    }
  }

  lemma {:induction false} NothingTargeted(t: Snapshot, actions: seq<PlanAction>)
    requires Consistent(t) && DefaultProven(t) && t.defaultRef.Some?
    requires forall a :: a in actions ==> ReuseOnly(a)
    ensures NotTargeted(t, actions)
  {
    var q := FindPolicy(t.policies, t.defaultRef.value).value;
    ReuseAvoidsEverything(actions, q, FindConnection(t.connections, q.connectionRef).value);
  }

  lemma {:induction false} VerificationReuses(t: Snapshot, d: Option<Device>)
    ensures forall a :: a in VerificationActions(t, d, true) ==> ReuseOnly(a)
  {
  }

  lemma {:induction false} ReusedPlan(t: Snapshot, ps: seq<Profile>, d: Option<Device>)
    requires ps != [] && Consistent(t) && t.state == SUPPORTED && !t.stale && DefaultProven(t)
    requires AllChosen(t, ps, d) && NotTargeted(t, ObjectActions(t, ps, d))
    requires forall a :: a in ObjectActions(t, ps, d) ==> ReuseOnly(a)
    ensures !PlanBlocked(t, ps, d)
    ensures forall a :: a in PlannedActions(t, ps, d) ==> ReuseOnly(a)
  {
    VerificationReuses(t, d);
  }

  /** Replanning the planned state is unblocked and only reuses what is there. */
  lemma {:induction false} PlannedStateIsFixpoint(s: Snapshot, ps: seq<Profile>, d: Option<Device>)
    requires Unblocked(s, ps, d)
    ensures var t := PlannedState(s, ps, d);
            && Reached(s, t) && Unblocked(t, ps, d)
            && forall a :: a in PlannedActions(t, ps, d) ==> ReuseOnly(a)
  {
    var bs := BindingsOf(s, ps);
    var x := NewAssignment(s, ps, d);
    var t := PlannedState(s, ps, d);
    ChoicesBind(s, ps, d);
    DeviceFits(s, ps, d);
    EveryStageIsConsistent(s, ps, bs, |bs|, |bs|, x);
    forall p | p in ps ensures ConnectionChoice(t, p).Reuse? && PolicyChoiceFor(t, p).Reuse? {
      var k :| 0 <= k < |ps| && ps[k] == p;
      FinalChoices(s, ps, bs, x, k);
    }
    if d.Some? {
      FinalAssignmentChoice(s, ps, d.value);
    }
    ReusedObjectActions(t, ps, d);
    NothingTargeted(t, ObjectActions(t, ps, d));
    ReusedPlan(t, ps, d);
  }

  /** The run of an unblocked plan ends in the planned state. */
  lemma {:induction false} RunEndsPlanned(s: Snapshot, ps: seq<Profile>, d: Option<Device>)
    requires Unblocked(s, ps, d)
    ensures var bs, x := BindingsOf(s, ps), NewAssignment(s, ps, d);
            Progress(s, bs, x, |PlanFor(s, ps, d).actions|) == PlannedState(s, ps, d)
  {
  }
}
