/** The complete simulator and the statements about every outcome it can have. */
module PlanSimulation {
  import opened Wrappers
  import opened PlanModel
  import opened PlanBuilder
  import opened PlanExecution
  import opened PlanBindings
  import opened PlanStages
  import opened PlanFixpoint
  import opened PlanIntegrity
  import opened PlanBuild
  import opened PlanSimulator
  import opened PlanReport

  /** Operations that would show the plan was not yet in effect. */
  predicate Forbidden(op: Operation) {
    Mutating(op) || op == Conflict || op == BlockedStep
  }

  lemma {:induction false} PlannedReferenceIsNamed(
    s: Snapshot, ps: seq<Profile>, bs: seq<Binding>, x: Option<Assignment>, k: nat)
    requires Bound(s, ps, bs) && k < |ps| && bs[k] == BindingOf(s, ps[k])
    requires !ConnectionChoice(s, ps[k]).Refuse? && NamedReference(ReferenceAt(s, ps[k]))
    ensures NamedReference(ReferenceAt(Stage(s, bs, |bs|, |bs|, x), ps[k]))
  {
    FinalChoices(s, ps, bs, x, k);
    NamedBinding(s, ps[k]);
  }

  lemma {:induction false} PlannedReferencesAreNamed(s: Snapshot, ps: seq<Profile>, d: Option<Device>)
    requires Bound(s, ps, BindingsOf(s, ps)) && AllChosen(s, ps, d) && NamedReferences(s, ps, d)
    ensures NamedReferences(PlannedState(s, ps, d), ps, d)
  {
    var bs := BindingsOf(s, ps);
    var x := NewAssignment(s, ps, d);
    forall p | p in ps ensures NamedReference(ReferenceAt(PlannedState(s, ps, d), p)) {
      var k :| 0 <= k < |ps| && ps[k] == p;
      PlannedReferenceIsNamed(s, ps, bs, x, k);
    }
    if d.Some? {
      FinalChoices(s, ps, bs, x, 0);
      assert ps[0] in ps;
      NamedPolicyBinding(s, ps[0]);
    }
  }

  lemma {:induction false} NamedBinding(s: Snapshot, p: Profile)
    requires !ConnectionChoice(s, p).Refuse? && NamedReference(ReferenceAt(s, p))
    ensures BoundConnection(s, p).id != ""
  {
    if ConnectionChoice(s, p).Create? {
      assert |BoundConnection(s, p).id| > 0;
    }
  }

  lemma {:induction false} NamedPolicyBinding(s: Snapshot, p: Profile)
    requires !PolicyChoiceFor(s, p).Refuse? && NamedReference(PolicyReferenceAt(s, p))
    ensures BoundPolicy(s, p).id != ""
  {
    if PolicyChoiceFor(s, p).Create? {
      assert |BoundPolicy(s, p).id| > 0;
    }
  }

  /** A state on which replanning is possible, unblocked, and finds nothing left to do. */
  ghost predicate Settled(t: Snapshot, ps: seq<Profile>, d: Option<Device>) {
    && Normal(ps) && NormalDevice(d) && Consistent(t)
    && NamedReferences(t, ps, d)
    && PlanFor(t, ps, d).status.HardwarePending?
    && forall a :: a in PlanFor(t, ps, d).actions ==> !Forbidden(a.operation)
  }

  lemma {:induction false} ReuseIsNotForbidden(actions: seq<PlanAction>)
    requires forall a :: a in actions ==> ReuseOnly(a)
    ensures forall a :: a in actions ==> !Forbidden(a.operation)
  {
    forall a | a in actions ensures !Forbidden(a.operation) {
      assert ReuseOnly(a);
    }
  }

  lemma {:induction false} PlannedStateSettles(s: Snapshot, ps: seq<Profile>, d: Option<Device>)
    requires Unblocked(s, ps, d) && NamedReferences(s, ps, d)
    ensures Settled(PlannedState(s, ps, d), ps, d)
  {
    PlannedStateIsFixpoint(s, ps, d);
    ChoicesBind(s, ps, d);
    PlannedReferencesAreNamed(s, ps, d);
    ReuseIsNotForbidden(PlannedActions(PlannedState(s, ps, d), ps, d));
  }

  /** The idempotency check: rebuild on the final state and look for anything left to do. */
  method Rerun(plan: ChangePlan, current: Snapshot) returns (idempotent: bool)
    requires Normal(plan.desired) && NormalDevice(plan.device) && Consistent(current)
    ensures Settled(current, plan.desired, plan.device) ==> idempotent
  {
    RebuildInputs(plan);
    var rerun := BuildChangePlan(Manifest(plan.desired, MANIFEST_SCHEMA), current, plan.device);
    idempotent := rerun.Ok? && !rerun.value.status.Blocked?
                  && forall a :: a in rerun.value.actions ==> !Forbidden(a.operation);
  }

  lemma {:induction false} RebuildInputs(plan: ChangePlan)
    requires Normal(plan.desired) && NormalDevice(plan.device)
    ensures NormalizeManifest(Manifest(plan.desired, MANIFEST_SCHEMA)) == Ok(plan.desired)
    ensures NormalizeDeviceOption(plan.device) == Ok(plan.device)
  {
    NormalProfilesAreFixed(plan.desired);
  }

  /** Everything reporting needs to know about a run that stopped after i actions. */
  ghost predicate Stopped(
    plan: ChangePlan, s: Snapshot, i: nat, current: Snapshot, completed: seq<ActionId>,
    stack: seq<(RollbackAction, Snapshot)>)
    requires Consistent(s) && i <= |plan.actions|
  {
    && current == Run(s, plan, i) && Reached(s, current) && completed == Ids(plan.actions[..i])
    && Restorable(s, stack, current) && StackActions(stack) == RollbackOf(plan.actions[..i])
    && UnrelatedIdentity(current, plan) == UnrelatedIdentity(s, plan)
  }

  lemma {:induction false} RunningStops(
    plan: ChangePlan, s: Snapshot, tr: seq<Snapshot>, i: nat, current: Snapshot, completed: seq<ActionId>,
    stack: seq<(RollbackAction, Snapshot)>)
    requires Trace(plan, s, tr) && Running(plan, s, tr, i, current, completed, stack)
    ensures Stopped(plan, s, i, current, completed, stack)
  {
    TraceIsRun(plan, s, tr, i);
    RunKeepsTheRest(s, plan, i);
  }

  method Report(
    plan: ChangePlan, s: Snapshot, success: bool, stoppedAfter: Option<ActionId>, completed: seq<ActionId>,
    performed: seq<RollbackAction>, rollbackSucceeded: bool, current: Snapshot, error: Option<ErrorCategory>)
    returns (r: SimulationResult)
    requires Consistent(s) && Reached(s, current) && UnrelatedIdentity(current, plan) == UnrelatedIdentity(s, plan)
    ensures r == SimulationResult(success, stoppedAfter, completed, performed, rollbackSucceeded,
                                  current == s, true, true, current, error)
  {
    var defaultUnchanged := Consistent(current) && DefaultProjection(current) == DefaultProjection(s);
    var unrelatedUnchanged := UnrelatedIdentity(current, plan) == UnrelatedIdentity(s, plan);
    r := SimulationResult(success && defaultUnchanged, stoppedAfter, completed, performed, rollbackSucceeded,
                          current == s, defaultUnchanged, unrelatedUnchanged, current, error);
  }

  /** Rolls an interrupted run back and reports it. */
  method Abort(
    plan: ChangePlan, s: Snapshot, ghost i: nat, stopped: Snapshot, completed: seq<ActionId>,
    stack: seq<(RollbackAction, Snapshot)>, stoppedAfter: Option<ActionId>, cause: Option<ErrorCategory>,
    rollbackFailure: bool)
    returns (r: SimulationResult)
    requires Consistent(s) && 0 < i <= |plan.actions| && Stopped(plan, s, i, stopped, completed, stack)
    requires stoppedAfter == Some(plan.actions[i - 1].id) && cause == Some(InjectedFailure)
    ensures r == Interrupted(s, plan, i - 1, rollbackFailure)
  {
    var current, performed, rollbackSucceeded, rollbackError := RollBack(s, stack, stopped, rollbackFailure);
    var error := if rollbackError.Some? then rollbackError else cause;
    r := Report(plan, s, false, stoppedAfter, completed, performed, rollbackSucceeded, current, error);
  }

  /** Reports a run that went through to its verified end. */
  method Conclude(
    plan: ChangePlan, s: Snapshot, stopped: Snapshot, completed: seq<ActionId>,
    ghost stack: seq<(RollbackAction, Snapshot)>)
    returns (r: SimulationResult)
    requires Consistent(s) && Stopped(plan, s, |plan.actions|, stopped, completed, stack)
    ensures r == Completed(s, plan)
  {
    assert plan.actions[..|plan.actions|] == plan.actions;
    r := Report(plan, s, true, None, completed, [], true, stopped, None);
  }

  /** Verification of a completed run, or rollback of an interrupted one, and the report. */
  method Finish(
    plan: ChangePlan, s: Snapshot, ghost i: nat, stopped: Snapshot, completed: seq<ActionId>,
    stack: seq<(RollbackAction, Snapshot)>, stoppedAfter: Option<ActionId>, injected: Option<ErrorCategory>,
    rollbackFailure: bool)
    returns (r: SimulationResult)
    requires Consistent(s) && Normal(plan.desired) && NormalDevice(plan.device)
    requires i <= |plan.actions| && Stopped(plan, s, i, stopped, completed, stack)
    requires stoppedAfter.None? ==>
               i == |plan.actions| && Settled(stopped, plan.desired, plan.device) && injected == None
    requires stoppedAfter.Some? ==>
               0 < i && stoppedAfter == Some(plan.actions[i - 1].id) && injected == Some(InjectedFailure)
    ensures r == if stoppedAfter.None? then Completed(s, plan) else Interrupted(s, plan, i - 1, rollbackFailure)
  {
    var success, error := stoppedAfter.None?, injected;
    if success {
      var idempotent := Rerun(plan, stopped);
      if !idempotent {
        success, error := false, Some(IdempotencyFailure);
      }
    }
    if success {
      r := Conclude(plan, s, stopped, completed, stack);
    } else {
      r := Abort(plan, s, i, stopped, completed, stack, stoppedAfter, error, rollbackFailure);
    }
  }

  lemma {:induction false} AcceptedPlanRuns(plan: ChangePlan, s: Snapshot)
    requires Current(plan, s) && Integrity(plan) && !plan.status.Blocked?
    requires NamedReferences(s, plan.desired, plan.device)
    ensures Normal(plan.desired) && NormalDevice(plan.device)
    ensures var tr := PlanTrace(s, plan.desired, plan.device);
            Trace(plan, s, tr) && Settled(tr[|plan.actions|], plan.desired, plan.device)
  {
    UnblockedFromStatus(plan, s);
    PlannedEnd(s, plan);
    PlannedStateSettles(s, plan.desired, plan.device);
  }

  /** Everything after the preflight checks have accepted the plan. */
  method RunAccepted(
    plan: ChangePlan, s: Snapshot, failAfter: Option<ActionId>, rollbackFailure: bool, ghost tr: seq<Snapshot>)
    returns (r: SimulationResult)
    requires Normal(plan.desired) && NormalDevice(plan.device)
    requires Trace(plan, s, tr) && Settled(tr[|plan.actions|], plan.desired, plan.device)
    ensures r == Outcome(s, plan, failAfter, rollbackFailure)
  {
    var current, completed, stack, stoppedAfter, error := Execute(plan, s, failAfter, tr);
    ghost var k := FaultPosition(plan.actions, failAfter);
    ghost var reached := if k == |plan.actions| then k else k + 1;
    RunningStops(plan, s, tr, reached, current, completed, stack);
    r := Finish(plan, s, reached, current, completed, stack, stoppedAfter, error, rollbackFailure);
  }

  method SimulateAccepted(plan: ChangePlan, s: Snapshot, failAfter: Option<ActionId>, rollbackFailure: bool)
    returns (r: SimulationResult)
    requires Accepted(plan, s) && NamedReferences(s, plan.desired, plan.device)
    ensures r == Outcome(s, plan, failAfter, rollbackFailure) && Reported(plan, s, failAfter, rollbackFailure, r)
  {
    AcceptedPlanRuns(plan, s);
    ghost var tr := PlanTrace(s, plan.desired, plan.device);
    r := RunAccepted(plan, s, failAfter, rollbackFailure, tr);
    OutcomeIsReported(plan, s, failAfter, rollbackFailure);
  }

  /** For every plan and snapshot, built by the planner or not: exactly one of the refusals, or the outcome that the
      injected fault determines. The remaining error categories never appear. A fault is undone without a trace unless
      rolling back is made to fail, and then everything done so far is left in place; without a fault every action is
      carried out, and planning again finds nothing left to do. */
  method SimulateChangePlan(plan: ChangePlan, s: Snapshot, failAfter: Option<ActionId>, rollbackFailure: bool)
    returns (r: Result<SimulationResult, PlanError>)
    ensures !Consistent(s) ==> r == Err(SnapshotError)
    ensures Consistent(s) && !Integrity(plan) ==> r == Ok(Unchanged(s, PlanIntegrityFailure))
    ensures Consistent(s) && Integrity(plan) ==>
              if SemanticFingerprint(s) != plan.source || DefaultProjection(s) != plan.sourceDefault
              then r == Ok(Unchanged(s, PlanSnapshotMismatch))
              else if !NamedReferences(s, plan.desired, plan.device) then r == Err(IntegrityError)
              else if !Current(plan, s) then r == Ok(Unchanged(s, PlanIntegrityFailure))
              else if plan.status.Blocked? then r == Ok(Unchanged(s, PlanIsBlocked))
              else r == Ok(Outcome(s, plan, failAfter, rollbackFailure))
    ensures Accepted(plan, s) ==> r.Ok? && Reported(plan, s, failAfter, rollbackFailure, r.value)
  {
    if !Consistent(s) {
      return Err(SnapshotError);
    }
    if Accepted(plan, s) {
      AcceptedIsNotRefused(plan, s);
    }
    if !Integrity(plan) {
      return Ok(Unchanged(s, PlanIntegrityFailure));
    }
    if SemanticFingerprint(s) != plan.source || DefaultProjection(s) != plan.sourceDefault {
      return Ok(Unchanged(s, PlanSnapshotMismatch));
    }
    IntegrityGivesNormalInputs(plan);
    RebuildInputs(plan);
    var expected := BuildChangePlan(Manifest(plan.desired, MANIFEST_SCHEMA), s, plan.device);
    if expected.Err? {
      return Err(expected.error);
    }
    if expected.value != plan {
      return Ok(Unchanged(s, PlanIntegrityFailure));
    }
    if plan.status.Blocked? {
      return Ok(Unchanged(s, PlanIsBlocked));
    }
    var outcome := SimulateAccepted(plan, s, failAfter, rollbackFailure);
    return Ok(outcome);
  }

  // ---- Every state of every outcome ----

  /** What no run of an accepted plan ever disturbs: consistency, the default policy, unrelated objects, and every
      object that was there before. */
  ghost predicate Undisturbed(plan: ChangePlan, s: Snapshot, t: Snapshot)
    requires Consistent(s)
  {
    Reached(s, t) && Extends(s, t) && UnrelatedIdentity(t, plan) == UnrelatedIdentity(s, plan)
  }

  lemma {:induction false} EveryStateIsUndisturbed(plan: ChangePlan, s: Snapshot, k: nat)
    requires Current(plan, s) && Integrity(plan) && !plan.status.Blocked? && k <= |plan.actions|
    ensures Undisturbed(plan, s, Run(s, plan, k))
  {
    UnblockedFromStatus(plan, s);
    TraceIsRun(plan, s, PlanTrace(s, plan.desired, plan.device), k);
    RunKeepsTheRest(s, plan, k);
  }

  lemma {:induction false} InterruptedState(plan: ChangePlan, s: Snapshot, fault: nat, rollbackFailure: bool)
    returns (k: nat)
    requires fault < |plan.actions|
    ensures k <= |plan.actions| && Interrupted(s, plan, fault, rollbackFailure).finalState == Run(s, plan, k)
  {
    k := if rollbackFailure && RollbackOf(plan.actions[..fault + 1]) != [] then fault + 1 else 0;
  }

  lemma {:induction false} OutcomeState(
    plan: ChangePlan, s: Snapshot, failAfter: Option<ActionId>, rollbackFailure: bool) returns (k: nat)
    ensures k <= |plan.actions| && Outcome(s, plan, failAfter, rollbackFailure).finalState == Run(s, plan, k)
  {
    var fault := FaultPosition(plan.actions, failAfter);
    if fault == |plan.actions| {
      k := fault;
    } else {
      k := InterruptedState(plan, s, fault, rollbackFailure);
    }
  }

  /** Whatever fault is injected, and even when the rollback is made to fail. */
  lemma {:induction false} EveryOutcomeIsUndisturbed(
    plan: ChangePlan, s: Snapshot, failAfter: Option<ActionId>, rollbackFailure: bool)
    requires Current(plan, s) && Integrity(plan) && !plan.status.Blocked?
    ensures Undisturbed(plan, s, Outcome(s, plan, failAfter, rollbackFailure).finalState)
  {
    var k := OutcomeState(plan, s, failAfter, rollbackFailure);
    EveryStateIsUndisturbed(plan, s, k);
  }
}
