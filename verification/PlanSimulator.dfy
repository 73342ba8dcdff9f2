/** `simulate_change_plan`: preflight, execution with fault injection, and rollback
    (scripts/routerkit_netcraze_plan.py:2071-2211). */
module PlanSimulator {
  import opened Wrappers
  import opened PlanModel
  import opened PlanBuilder
  import opened PlanExecution
  import opened PlanStages
  import opened PlanFixpoint

  datatype ErrorCategory =
    | PlanIntegrityFailure | PlanSnapshotMismatch | PlanIsBlocked | DependencyFailure | DefaultPolicyChanged
    | SnapshotInconsistent | VerificationFailure | InjectedFailure | IdempotencyFailure | RollbackFailed
    | RollbackInvalid

  datatype SimulationResult = SimulationResult(
    success: bool, stoppedAfter: Option<ActionId>, completed: seq<ActionId>, rollback: seq<RollbackAction>,
    rollbackSucceeded: bool, restored: bool, defaultUnchanged: bool, unrelatedUnchanged: bool, finalState: Snapshot,
    error: Option<ErrorCategory>)

  function Unchanged(s: Snapshot, error: ErrorCategory): SimulationResult {
    SimulationResult(false, None, [], [], true, true, true, true, s, Some(error))
  }

  // ---- Objects the plan has nothing to do with ----

  function TouchedNames(actions: seq<PlanAction>): set<string> {
    set a | a in actions :: a.target.text
  }

  function OtherConnections(cs: seq<Connection>, touched: set<string>): seq<Connection> {
    if cs == [] then []
    else OtherConnections(cs[..|cs| - 1], touched) + (if cs[|cs| - 1].name.text in touched then [] else [cs[|cs| - 1]])
  }

  function OtherPolicies(qs: seq<Policy>, touched: set<string>): seq<Policy> {
    if qs == [] then []
    else OtherPolicies(qs[..|qs| - 1], touched) + (if qs[|qs| - 1].name.text in touched then [] else [qs[|qs| - 1]])
  }

  function OtherAssignments(xs: seq<Assignment>, mac: Option<string>): seq<Assignment> {
    if xs == [] then []
    else OtherAssignments(xs[..|xs| - 1], mac) + (if Some(xs[|xs| - 1].mac) == mac then [] else [xs[|xs| - 1]])
  }

  datatype Unrelated = Unrelated(connections: seq<Connection>, policies: seq<Policy>, assignments: seq<Assignment>)

  function UnrelatedIdentity(t: Snapshot, plan: ChangePlan): Unrelated {
    var touched := TouchedNames(plan.actions);
    Unrelated(OtherConnections(t.connections, touched), OtherPolicies(t.policies, touched),
              OtherAssignments(t.assignments, if plan.device.None? then None else Some(plan.device.value.mac)))
  }

  /** u holds everything t holds, in the same order, and differs only by objects appended at the end. */
  ghost predicate Extends(t: Snapshot, u: Snapshot) {
    && t.connections <= u.connections && t.policies <= u.policies && t.assignments <= u.assignments
    && u == t.(connections := u.connections, policies := u.policies, assignments := u.assignments)
  }

  lemma {:induction false} AppendedConnectionIsRelated(cs: seq<Connection>, c: Connection, touched: set<string>)
    requires c.name.text in touched
    ensures OtherConnections(cs + [c], touched) == OtherConnections(cs, touched)
  {
    assert (cs + [c])[..|cs|] == cs;
  }

  lemma {:induction false} AppendedPolicyIsRelated(qs: seq<Policy>, q: Policy, touched: set<string>)
    requires q.name.text in touched
    ensures OtherPolicies(qs + [q], touched) == OtherPolicies(qs, touched)
  {
    assert (qs + [q])[..|qs|] == qs;
  }

  lemma {:induction false} AppendedAssignmentIsRelated(xs: seq<Assignment>, x: Assignment)
    ensures OtherAssignments(xs + [x], Some(x.mac)) == OtherAssignments(xs, Some(x.mac))
  {
    assert (xs + [x])[..|xs|] == xs;
  }

  /** No step of any plan touches an object it does not name, or edits or removes anything. */
  lemma {:induction false} ApplyKeepsTheRest(t: Snapshot, a: PlanAction, plan: ChangePlan)
    requires a in plan.actions && Apply(t, a, plan.desired, plan.device).Ok?
    ensures var u := Apply(t, a, plan.desired, plan.device).value;
            Extends(t, u) && UnrelatedIdentity(u, plan) == UnrelatedIdentity(t, plan)
  {
    var u := Apply(t, a, plan.desired, plan.device).value;
    assert a.target.text in TouchedNames(plan.actions);
    if u.connections != t.connections {
      AppendedConnectionIsRelated(t.connections, u.connections[|t.connections|], TouchedNames(plan.actions));
    } else if u.policies != t.policies {
      AppendedPolicyIsRelated(t.policies, u.policies[|t.policies|], TouchedNames(plan.actions));
    } else if u.assignments != t.assignments {
      AppendedAssignmentIsRelated(t.assignments, u.assignments[|t.assignments|]);
    }
  }

  lemma {:induction false} RunKeepsTheRest(s: Snapshot, plan: ChangePlan, k: nat)
    requires k <= |plan.actions|
    ensures Extends(s, Run(s, plan, k)) && UnrelatedIdentity(Run(s, plan, k), plan) == UnrelatedIdentity(s, plan)
  {
    if k > 0 {
      RunKeepsTheRest(s, plan, k - 1);
      var t := Run(s, plan, k - 1);
      if Apply(t, plan.actions[k - 1], plan.desired, plan.device).Ok? {
        ApplyKeepsTheRest(t, plan.actions[k - 1], plan);
      }
    }
  }

  lemma {:induction false} TraceIsRun(plan: ChangePlan, s: Snapshot, tr: seq<Snapshot>, k: nat)
    requires Trace(plan, s, tr) && k <= |plan.actions|
    ensures tr[k] == Run(s, plan, k) && Reached(s, tr[k])
  {
    if k > 0 {
      TraceIsRun(plan, s, tr, k - 1);
      assert StepAt(plan, s, tr, k - 1);
    }
  }

  // ---- The whole outcome, as a function of the injected fault ----

  function Ids(actions: seq<PlanAction>): (r: seq<ActionId>)
    ensures |r| == |actions|
  {
    seq(|actions|, k requires 0 <= k < |actions| => actions[k].id)
  }

  /** The first position a fault is injected after, or the length of the plan. */
  function FaultPosition(actions: seq<PlanAction>, failAfter: Option<ActionId>): (k: nat)
    ensures k <= |actions|
    ensures k < |actions| ==> Some(actions[k].id) == failAfter
    ensures forall j :: 0 <= j < k ==> Some(actions[j].id) != failAfter
  {
    if actions == [] then 0
    else if Some(actions[0].id) == failAfter then 0
    else 1 + FaultPosition(actions[1..], failAfter)
  }

  function Completed(s: Snapshot, plan: ChangePlan): SimulationResult {
    var final := Run(s, plan, |plan.actions|);
    SimulationResult(true, None, Ids(plan.actions), [], true, final == s, true, true, final, None)
  }

  /** The outcome of failing right after action k. */
  function Interrupted(s: Snapshot, plan: ChangePlan, k: nat, rollbackFailure: bool): SimulationResult
    requires k < |plan.actions|
  {
    var done := plan.actions[..k + 1];
    var undo := RollbackOf(done);
    var stuck := rollbackFailure && undo != [];
    var final := if stuck then Run(s, plan, k + 1) else s;
    SimulationResult(
      false, Some(plan.actions[k].id), Ids(done), if stuck then undo[..1] else undo, !stuck,
      final == s, true, true, final,
      Some(if stuck then RollbackFailed else InjectedFailure))
  }

  function Outcome(s: Snapshot, plan: ChangePlan, failAfter: Option<ActionId>, rollbackFailure: bool)
    : SimulationResult
  {
    var k := FaultPosition(plan.actions, failAfter);
    if k == |plan.actions| then Completed(s, plan) else Interrupted(s, plan, k, rollbackFailure)
  }

  // ---- Execution ----

  /** The rollback of a stack, most recent entry first. */
  function StackActions(stack: seq<(RollbackAction, Snapshot)>): seq<RollbackAction> {
    if stack == [] then [] else [stack[|stack| - 1].0] + StackActions(stack[..|stack| - 1])
  }

  /** What the rollback stack records after the first i actions. */
  ghost predicate StackFor(s: Snapshot, plan: ChangePlan, stack: seq<(RollbackAction, Snapshot)>, i: nat, t: Snapshot)
    requires Consistent(s) && i <= |plan.actions|
  {
    && StackActions(stack) == RollbackOf(plan.actions[..i])
    && (if stack == [] then t == s else stack[0].1 == s)
    && forall k :: 0 <= k < |stack| ==> Reached(s, stack[k].1)
  }

  lemma {:induction false} StackGrows(
    s: Snapshot, plan: ChangePlan, stack: seq<(RollbackAction, Snapshot)>, i: nat, t: Snapshot, u: Snapshot)
    requires Consistent(s) && i < |plan.actions| && StackFor(s, plan, stack, i, t) && Reached(s, t)
    requires Mutating(plan.actions[i].operation) <==> u != t
    ensures var rollback := RollbackFor(plan.actions[i]);
            && (rollback.Some? <==> u != t)
            && StackFor(s, plan, if rollback.Some? then stack + [(rollback.value, t)] else stack, i + 1, u)
  {
    assert plan.actions[..i + 1][..i] == plan.actions[..i];
    var rollback := RollbackFor(plan.actions[i]);
    if rollback.Some? {
      assert (stack + [(rollback.value, t)])[..|stack|] == stack;
    }
  }

  /** Applies one action and makes every check the simulator makes after it. */
  method CheckedStep(plan: ChangePlan, s: Snapshot, before: Snapshot, action: PlanAction, ghost after: Snapshot)
    returns (current: Snapshot, error: Option<ErrorCategory>)
    requires Consistent(s) && StepSucceeds(plan, s, before, action, after)
    ensures current == after && error == None
  {
    current, error := before, None;
    var step := Apply(before, action, plan.desired, plan.device);
    if step.Ok? {
      current := step.value;
    } else {
      error := Some(DependencyFailure);
    }
    if error.None? {
      if !Consistent(current) {
        error := Some(SnapshotInconsistent);
      } else if DefaultProjection(current) != DefaultProjection(s) {
        error := Some(DefaultPolicyChanged);
      } else if !Verified(current, action, plan) {
        error := Some(VerificationFailure);
      }
    }
  }

  lemma {:induction false} StepFacts(plan: ChangePlan, s: Snapshot, tr: seq<Snapshot>, i: nat)
    requires Trace(plan, s, tr) && i < |plan.actions|
    ensures StepSucceeds(plan, s, tr[i], plan.actions[i], tr[i + 1])
    ensures Reached(s, tr[i]) && (Mutating(plan.actions[i].operation) <==> tr[i + 1] != tr[i])
  {
    assert StepAt(plan, s, tr, i);
    TraceIsRun(plan, s, tr, i);
  }

  lemma {:induction false} IdsNext(actions: seq<PlanAction>, i: nat)
    requires i < |actions|
    ensures Ids(actions[..i + 1]) == Ids(actions[..i]) + [actions[i].id]
  {
  }

  /** Where the loop stands after i actions without a fault. */
  ghost predicate Running(
    plan: ChangePlan, s: Snapshot, tr: seq<Snapshot>, i: nat, current: Snapshot, completed: seq<ActionId>,
    stack: seq<(RollbackAction, Snapshot)>)
    requires Trace(plan, s, tr)
  {
    && i <= |plan.actions| && current == tr[i] && completed == Ids(plan.actions[..i])
    && StackFor(s, plan, stack, i, current)
  }

  /** One turn of the loop, before fault injection. */
  method Advance(
    plan: ChangePlan, s: Snapshot, ghost tr: seq<Snapshot>, i: nat, before: Snapshot, completed: seq<ActionId>,
    stack: seq<(RollbackAction, Snapshot)>)
    returns (current: Snapshot, completed': seq<ActionId>, stack': seq<(RollbackAction, Snapshot)>,
             error: Option<ErrorCategory>)
    requires Trace(plan, s, tr) && Running(plan, s, tr, i, before, completed, stack) && i < |plan.actions|
    ensures Running(plan, s, tr, i + 1, current, completed', stack') && error == None
  {
    var action := plan.actions[i];
    StepFacts(plan, s, tr, i);
    current, error := CheckedStep(plan, s, before, action, tr[i + 1]);
    StackGrows(s, plan, stack, i, before, current);
    var rollback := RollbackFor(action);
    stack' := stack;
    if rollback.Some? && current != before {
      stack' := stack + [(rollback.value, before)];
    }
    completed' := completed;
    if error.None? {
      completed' := completed + [action.id];
    }
    IdsNext(plan.actions, i);
  }

  lemma {:induction false} RunningStarts(plan: ChangePlan, s: Snapshot, tr: seq<Snapshot>)
    requires Trace(plan, s, tr)
    ensures Running(plan, s, tr, 0, s, [], [])
  {
    assert plan.actions[..0] == [];
  }

  /** Runs the actions in order; a fault-free trace makes every defensive error branch unreachable. */
  method Execute(plan: ChangePlan, s: Snapshot, failAfter: Option<ActionId>, ghost tr: seq<Snapshot>)
    returns (current: Snapshot, completed: seq<ActionId>, stack: seq<(RollbackAction, Snapshot)>,
             stoppedAfter: Option<ActionId>, error: Option<ErrorCategory>)
    requires Trace(plan, s, tr)
    ensures var k := FaultPosition(plan.actions, failAfter);
            if k == |plan.actions|
            then Running(plan, s, tr, k, current, completed, stack) && stoppedAfter == None && error == None
            else Running(plan, s, tr, k + 1, current, completed, stack)
                 && stoppedAfter == Some(plan.actions[k].id) && error == Some(InjectedFailure)
  {
    current, completed, stack, stoppedAfter, error := s, [], [], None, None;
    RunningStarts(plan, s, tr);
    var i := 0;
    while i < |plan.actions|
      invariant 0 <= i <= |plan.actions| && Running(plan, s, tr, i, current, completed, stack)
      invariant forall j :: 0 <= j < i ==> Some(plan.actions[j].id) != failAfter
      invariant stoppedAfter == None && error == None
    {
      current, completed, stack, error := Advance(plan, s, tr, i, current, completed, stack);
      var id := plan.actions[i].id;
      if error.Some? {
        stoppedAfter := Some(id);
      }
      if failAfter == Some(id) && stoppedAfter.None? {
        stoppedAfter, error := Some(id), Some(InjectedFailure);
      }
      if stoppedAfter.Some? {
        FaultFound(plan.actions, failAfter, i);
        return;
      }
      i := i + 1;
    }
    FaultFound(plan.actions, failAfter, i);
  }

  lemma {:induction false} FaultFound(actions: seq<PlanAction>, failAfter: Option<ActionId>, i: nat)
    requires i <= |actions| && forall j :: 0 <= j < i ==> Some(actions[j].id) != failAfter
    requires i < |actions| ==> Some(actions[i].id) == failAfter
    ensures FaultPosition(actions, failAfter) == i
  {
    var k := FaultPosition(actions, failAfter);
    assert !(k < i);
    assert !(i < k);
  }

  // ---- Rollback ----

  /** Every recorded snapshot is sound, and the oldest one is the initial state. */
  ghost predicate Restorable(s: Snapshot, stack: seq<(RollbackAction, Snapshot)>, stopped: Snapshot)
    requires Consistent(s)
  {
    && (if stack == [] then stopped == s else stack[0].1 == s)
    && forall k :: 0 <= k < |stack| ==> Reached(s, stack[k].1)
  }

  method Revalidate(s: Snapshot, restored: Snapshot) returns (ok: bool)
    requires Consistent(s)
    ensures Reached(s, restored) ==> ok
  {
    ok := Consistent(restored) && DefaultProjection(restored) == DefaultProjection(s);
  }

  lemma {:induction false} PopStack(stack: seq<(RollbackAction, Snapshot)>, performed: seq<RollbackAction>, k: nat)
    requires 0 < k <= |stack| && performed + StackActions(stack[..k]) == StackActions(stack)
    ensures performed + [stack[k - 1].0] + StackActions(stack[..k - 1]) == StackActions(stack)
  {
    assert stack[..k][..k - 1] == stack[..k - 1];
    assert performed + ([stack[k - 1].0] + StackActions(stack[..k - 1]))
        == performed + [stack[k - 1].0] + StackActions(stack[..k - 1]);
  }

  /** Restores the recorded snapshots, latest first, unless rollback itself is made to fail. */
  method RollBack(s: Snapshot, stack: seq<(RollbackAction, Snapshot)>, stopped: Snapshot, rollbackFailure: bool)
    returns (current: Snapshot, performed: seq<RollbackAction>, succeeded: bool, error: Option<ErrorCategory>)
    requires Consistent(s) && Restorable(s, stack, stopped)
    ensures var stuck := rollbackFailure && stack != [];
            && current == (if stuck then stopped else s)
            && performed == (if stuck then StackActions(stack)[..1] else StackActions(stack))
            && succeeded == !stuck && error == (if stuck then Some(RollbackFailed) else None)
  {
    current, performed, succeeded, error := stopped, [], true, None;
    var k := |stack|;
    assert stack[..k] == stack;
    while k > 0
      invariant 0 <= k <= |stack|
      invariant succeeded && error == None && (rollbackFailure ==> k == |stack|)
      invariant performed + StackActions(stack[..k]) == StackActions(stack)
      invariant k == |stack| ==> current == stopped && performed == []
      invariant k < |stack| ==> current == stack[k].1
    {
      PopStack(stack, performed, k);
      performed := performed + [stack[k - 1].0];
      if rollbackFailure {
        return stopped, performed, false, Some(RollbackFailed);
      }
      current := stack[k - 1].1;
      var ok := Revalidate(s, current);
      if !ok {
        succeeded, error := false, Some(RollbackInvalid);
        return;
      }
      k := k - 1;
    }
    assert stack[..0] == [];
  }
}
