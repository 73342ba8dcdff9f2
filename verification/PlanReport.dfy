/** What an accepted plan's simulation reports, in terms of the plan, the snapshot and the injected fault alone
    (scripts/routerkit_netcraze_plan.py:2071-2211). */
module PlanReport {
  import opened Wrappers
  import opened PlanModel
  import opened PlanBuilder
  import opened PlanExecution
  import opened PlanFixpoint
  import opened PlanIntegrity
  import opened PlanSimulator
  import opened PlanRollback

  lemma {:induction false} IntegrityGivesNormalInputs(plan: ChangePlan)
    requires Integrity(plan)
    ensures Normal(plan.desired) && NormalDevice(plan.device)
  {
    NormalizedProfilesAreNormal(plan.desired);
  }

  /** The plan is the one the planner builds on this snapshot. */
  ghost predicate Current(plan: ChangePlan, s: Snapshot) {
    plan.desired != [] && Consistent(s) && plan == PlanFor(s, plan.desired, plan.device)
  }

  lemma {:induction false} PlannedEnd(s: Snapshot, plan: ChangePlan)
    requires Current(plan, s) && Unblocked(s, plan.desired, plan.device)
    ensures PlanTrace(s, plan.desired, plan.device)[|plan.actions|] == PlannedState(s, plan.desired, plan.device)
  {
    RunEndsPlanned(s, plan.desired, plan.device);
  }

  lemma {:induction false} UnblockedFromStatus(plan: ChangePlan, s: Snapshot)
    requires Current(plan, s) && Integrity(plan) && !plan.status.Blocked?
    ensures Unblocked(s, plan.desired, plan.device)
    ensures Trace(plan, s, PlanTrace(s, plan.desired, plan.device))
  {
    IntegrityGivesNormalInputs(plan);
    UnblockedPlanRuns(s, plan.desired, plan.device);
  }

  /** The plan the planner builds on this snapshot, unblocked and sound. */
  ghost predicate Accepted(plan: ChangePlan, s: Snapshot) {
    Current(plan, s) && Integrity(plan) && !plan.status.Blocked?
  }

  /** How many of the actions change something. */
  function Mutations(actions: seq<PlanAction>): nat {
    if actions == [] then 0
    else Mutations(actions[..|actions| - 1]) + (if Mutating(actions[|actions| - 1].operation) then 1 else 0)
  }

  /** The ids reported as completed are those of the first n actions. */
  predicate CompletedThrough(plan: ChangePlan, n: nat, r: SimulationResult) {
    && |r.completed| == n <= |plan.actions|
    && forall i :: 0 <= i < n ==> r.completed[i] == plan.actions[i].id
  }

  /** The last n entries of the plan's own rollback list. */
  function LastRollbacks(plan: ChangePlan, n: nat): seq<RollbackAction> {
    if n <= |plan.rollback| then plan.rollback[|plan.rollback| - n..] else plan.rollback
  }

  /** The fault after action k has been undone completely. */
  ghost predicate FaultUndone(plan: ChangePlan, s: Snapshot, k: nat, r: SimulationResult)
    requires k < |plan.actions|
  {
    && r.finalState == s && r.restored && r.rollbackSucceeded && r.defaultUnchanged && r.unrelatedUnchanged
    && !r.success && r.error == Some(InjectedFailure) && r.stoppedAfter == Some(plan.actions[k].id)
    && CompletedThrough(plan, k + 1, r)
    && r.rollback == LastRollbacks(plan, Mutations(plan.actions[..k + 1]))
  }

  /** The rollback failed at its first action, and everything the run had done is still there. */
  ghost predicate FaultLeft(plan: ChangePlan, s: Snapshot, k: nat, r: SimulationResult)
    requires k < |plan.actions|
  {
    && r.finalState == Run(s, plan, k + 1) != s && !r.restored && !r.rollbackSucceeded
    && r.defaultUnchanged && r.unrelatedUnchanged
    && !r.success && r.error == Some(RollbackFailed) && r.stoppedAfter == Some(plan.actions[k].id)
    && CompletedThrough(plan, k + 1, r)
    && |r.rollback| == 1 && r.rollback <= LastRollbacks(plan, Mutations(plan.actions[..k + 1]))
  }

  /** After a fault the run is rolled back, unless rolling back is made to fail and there is something to undo. */
  ghost predicate FaultMeans(plan: ChangePlan, s: Snapshot, k: nat, rollbackFailure: bool, r: SimulationResult) {
    k < |plan.actions| && if rollbackFailure && Mutations(plan.actions[..k + 1]) > 0 then FaultLeft(plan, s, k, r)
                          else FaultUndone(plan, s, k, r)
  }

  /** Planning again on this state is possible, unblocked, and finds nothing left to do. */
  ghost predicate Exhausted(plan: ChangePlan, t: Snapshot) {
    && plan.desired != [] && Consistent(t)
    && PlanFor(t, plan.desired, plan.device).status.HardwarePending?
    && forall a :: a in PlanFor(t, plan.desired, plan.device).actions ==> ReuseOnly(a)
  }

  /** Every action went through, and planning again on the result finds nothing left to do. */
  ghost predicate WentThrough(plan: ChangePlan, s: Snapshot, r: SimulationResult) {
    && r.success && r.error.None? && r.stoppedAfter.None? && r.rollback == [] && r.rollbackSucceeded
    && CompletedThrough(plan, |plan.actions|, r)
    && r.finalState == Run(s, plan, |plan.actions|) && r.defaultUnchanged && r.unrelatedUnchanged
    && (r.restored <==> Mutations(plan.actions) == 0)
    && Exhausted(plan, r.finalState)
  }

  lemma {:induction false} RollbacksCounted(actions: seq<PlanAction>)
    ensures |RollbackOf(actions)| == Mutations(actions)
  {
    if actions != [] {
      RollbacksCounted(actions[..|actions| - 1]);
    }
  }

  lemma {:induction false} ExtensionsCompose(t: Snapshot, u: Snapshot, v: Snapshot)
    requires Extends(t, u) && Extends(u, v)
    ensures Extends(t, v) && (v == t ==> u == t)
  {
  }

  lemma {:induction false} RunGrows(s: Snapshot, plan: ChangePlan, i: nat, k: nat)
    requires i <= k <= |plan.actions|
    ensures Extends(Run(s, plan, i), Run(s, plan, k))
    decreases k
  {
    if i < k {
      RunGrows(s, plan, i, k - 1);
      var t := Run(s, plan, k - 1);
      if Apply(t, plan.actions[k - 1], plan.desired, plan.device).Ok? {
        ApplyKeepsTheRest(t, plan.actions[k - 1], plan);
        ExtensionsCompose(Run(s, plan, i), t, Run(s, plan, k));
      }
    }
  }

  lemma {:induction false} StepOfRun(plan: ChangePlan, s: Snapshot, k: nat)
    requires Accepted(plan, s) && k < |plan.actions|
    ensures Mutating(plan.actions[k].operation) <==> Run(s, plan, k + 1) != Run(s, plan, k)
  {
    UnblockedFromStatus(plan, s);
    var tr := PlanTrace(s, plan.desired, plan.device);
    StepFacts(plan, s, tr, k);
    TraceIsRun(plan, s, tr, k);
    TraceIsRun(plan, s, tr, k + 1);
  }

  lemma {:induction false} MutationsNext(actions: seq<PlanAction>, k: nat)
    requires k < |actions|
    ensures Mutations(actions[..k + 1])
            == Mutations(actions[..k]) + (if Mutating(actions[k].operation) then 1 else 0)
  {
    assert actions[..k + 1][..k] == actions[..k];
  }

  lemma {:induction false} GrowthShows(s: Snapshot, t: Snapshot, u: Snapshot)
    requires Extends(s, t) && Extends(t, u)
    ensures u == s <==> t == s && u == t
  {
    ExtensionsCompose(s, t, u);
  }

  /** A run is back where it began only if nothing it did was a mutation. */
  lemma {:induction false} MutationsShow(plan: ChangePlan, s: Snapshot, k: nat)
    requires Accepted(plan, s) && k <= |plan.actions|
    ensures Run(s, plan, k) == s <==> Mutations(plan.actions[..k]) == 0
  {
    if k > 0 {
      MutationsShow(plan, s, k - 1);
      MutationsNext(plan.actions, k - 1);
      StepOfRun(plan, s, k - 1);
      RunGrows(s, plan, 0, k - 1);
      RunGrows(s, plan, k - 1, k);
      GrowthShows(s, Run(s, plan, k - 1), Run(s, plan, k));
    }
  }

  lemma {:induction false} ExpectedIdsDiffer(ps: seq<Profile>, d: Option<Device>, i: nat, j: nat)
    requires Normal(ps) && i < j < ExpectedCount(ps, d)
    ensures ExpectedId(ps, d, i) != ExpectedId(ps, d, j)
  {
    var n := |ps|;
    assert i < n ==> ps[i].slot == i + 1;
    assert j < n ==> ps[j].slot == j + 1;
    assert n <= i < 2 * n ==> ps[i - n].slot == i - n + 1;
    assert n <= j < 2 * n ==> ps[j - n].slot == j - n + 1;
  }

  /** A fault names one action. */
  lemma {:induction false} FaultIsFound(plan: ChangePlan, s: Snapshot, failAfter: Option<ActionId>, k: nat)
    requires Accepted(plan, s) && k < |plan.actions| && Some(plan.actions[k].id) == failAfter
    ensures FaultPosition(plan.actions, failAfter) == k
  {
    IntegrityGivesNormalInputs(plan);
    PlannedIds(s, plan.desired, plan.device);
    forall j | 0 <= j < k ensures Some(plan.actions[j].id) != failAfter {
      ExpectedIdsDiffer(plan.desired, plan.device, j, k);
    }
    FaultFound(plan.actions, failAfter, k);
  }

  lemma {:induction false} RollbackIsLast(plan: ChangePlan, k: nat)
    requires k <= |plan.actions| && plan.rollback == RollbackOf(plan.actions)
    ensures RollbackOf(plan.actions[..k]) == LastRollbacks(plan, Mutations(plan.actions[..k]))
    ensures RollbackOf(plan.actions[..k]) != [] <==> Mutations(plan.actions[..k]) > 0
  {
    RollbacksCounted(plan.actions[..k]);
    PerformedRollbackIsSuffix(plan.actions, k);
  }

  lemma {:induction false} AcceptedRollback(plan: ChangePlan, s: Snapshot)
    requires Accepted(plan, s)
    ensures plan.rollback == RollbackOf(plan.actions)
  {
  }

  lemma {:induction false} IdsComplete(plan: ChangePlan, n: nat, r: SimulationResult)
    requires n <= |plan.actions| && r.completed == Ids(plan.actions[..n])
    ensures CompletedThrough(plan, n, r)
  {
  }

  lemma {:induction false} InterruptedMeans(plan: ChangePlan, s: Snapshot, k: nat, rollbackFailure: bool)
    requires k < |plan.actions| && plan.rollback == RollbackOf(plan.actions)
    requires Run(s, plan, k + 1) == s <==> Mutations(plan.actions[..k + 1]) == 0
    ensures FaultMeans(plan, s, k, rollbackFailure, Interrupted(s, plan, k, rollbackFailure))
  {
    RollbackIsLast(plan, k + 1);
    IdsComplete(plan, k + 1, Interrupted(s, plan, k, rollbackFailure));
  }

  lemma {:induction false} InterruptionFacts(plan: ChangePlan, s: Snapshot, k: nat)
    requires Accepted(plan, s) && k <= |plan.actions|
    ensures plan.rollback == RollbackOf(plan.actions)
    ensures Run(s, plan, k) == s <==> Mutations(plan.actions[..k]) == 0
  {
    AcceptedRollback(plan, s);
    MutationsShow(plan, s, k);
  }

  lemma {:induction false} OutcomeAtFault(
    plan: ChangePlan, s: Snapshot, failAfter: Option<ActionId>, rollbackFailure: bool, k: nat)
    requires k < |plan.actions| && FaultPosition(plan.actions, failAfter) == k
    requires FaultMeans(plan, s, k, rollbackFailure, Interrupted(s, plan, k, rollbackFailure))
    ensures FaultMeans(plan, s, k, rollbackFailure, Outcome(s, plan, failAfter, rollbackFailure))
  {
  }

  lemma {:induction false} FaultIsReported(
    plan: ChangePlan, s: Snapshot, failAfter: Option<ActionId>, rollbackFailure: bool, k: nat)
    requires Accepted(plan, s) && k < |plan.actions| && Some(plan.actions[k].id) == failAfter
    ensures FaultMeans(plan, s, k, rollbackFailure, Outcome(s, plan, failAfter, rollbackFailure))
  {
    FaultIsFound(plan, s, failAfter, k);
    InterruptionFacts(plan, s, k + 1);
    InterruptedMeans(plan, s, k, rollbackFailure);
    OutcomeAtFault(plan, s, failAfter, rollbackFailure, k);
  }

  lemma {:induction false} RunEnds(plan: ChangePlan, s: Snapshot)
    requires Accepted(plan, s)
    ensures Run(s, plan, |plan.actions|) == PlannedState(s, plan.desired, plan.device)
    ensures Unblocked(s, plan.desired, plan.device)
  {
    UnblockedFromStatus(plan, s);
    PlannedEnd(s, plan);
    TraceIsRun(plan, s, PlanTrace(s, plan.desired, plan.device), |plan.actions|);
  }

  /** Planning again at the end of a run is possible, unblocked, and only reuses what is there. */
  lemma {:induction false} NothingLeft(plan: ChangePlan, s: Snapshot)
    requires Accepted(plan, s)
    ensures Exhausted(plan, Run(s, plan, |plan.actions|))
  {
    RunEnds(plan, s);
    PlannedStateIsFixpoint(s, plan.desired, plan.device);
  }

  lemma {:induction false} CompletedMeans(plan: ChangePlan, s: Snapshot)
    requires Exhausted(plan, Run(s, plan, |plan.actions|))
    requires Run(s, plan, |plan.actions|) == s <==> Mutations(plan.actions) == 0
    ensures WentThrough(plan, s, Completed(s, plan))
  {
    assert plan.actions[..|plan.actions|] == plan.actions;
    IdsComplete(plan, |plan.actions|, Completed(s, plan));
  }

  lemma {:induction false} NoFaultFound(actions: seq<PlanAction>, failAfter: Option<ActionId>)
    requires forall a :: a in actions ==> Some(a.id) != failAfter
    ensures FaultPosition(actions, failAfter) == |actions|
  {
    forall j | 0 <= j < |actions| ensures Some(actions[j].id) != failAfter {
      assert actions[j] in actions;
    }
    FaultFound(actions, failAfter, |actions|);
  }

  lemma {:induction false} EveryCompletionMeans(plan: ChangePlan, s: Snapshot)
    requires Accepted(plan, s)
    ensures WentThrough(plan, s, Completed(s, plan))
  {
    NothingLeft(plan, s);
    MutationsShow(plan, s, |plan.actions|);
    assert plan.actions[..|plan.actions|] == plan.actions;
    CompletedMeans(plan, s);
  }

  lemma {:induction false} CompletionIsReported(
    plan: ChangePlan, s: Snapshot, failAfter: Option<ActionId>, rollbackFailure: bool)
    requires Accepted(plan, s) && forall a :: a in plan.actions ==> Some(a.id) != failAfter
    ensures WentThrough(plan, s, Outcome(s, plan, failAfter, rollbackFailure))
  {
    NoFaultFound(plan.actions, failAfter);
    EveryCompletionMeans(plan, s);
  }

  /** What is reported, in terms of the fault: undone without a trace, left as it was when rolling back fails, or all
      done. */
  ghost predicate Reported(
    plan: ChangePlan, s: Snapshot, failAfter: Option<ActionId>, rollbackFailure: bool, r: SimulationResult)
  {
    && ((forall a :: a in plan.actions ==> Some(a.id) != failAfter) ==> WentThrough(plan, s, r))
    && (forall k {:trigger FaultMeans(plan, s, k, rollbackFailure, r)} ::
          0 <= k < |plan.actions| && Some(plan.actions[k].id) == failAfter ==>
            FaultMeans(plan, s, k, rollbackFailure, r))
  }

  /** Every outcome reports what happened. */
  lemma {:induction false} OutcomeIsReported(
    plan: ChangePlan, s: Snapshot, failAfter: Option<ActionId>, rollbackFailure: bool)
    requires Accepted(plan, s)
    ensures Reported(plan, s, failAfter, rollbackFailure, Outcome(s, plan, failAfter, rollbackFailure))
  {
    var r := Outcome(s, plan, failAfter, rollbackFailure);
    if forall a :: a in plan.actions ==> Some(a.id) != failAfter {
      CompletionIsReported(plan, s, failAfter, rollbackFailure);
    }
    forall k | 0 <= k < |plan.actions| && Some(plan.actions[k].id) == failAfter
      ensures FaultMeans(plan, s, k, rollbackFailure, r)
    {
      FaultIsReported(plan, s, failAfter, rollbackFailure, k);
    }
  }

  /** None of the refusals before a run applies to an accepted plan. */
  lemma {:induction false} AcceptedIsNotRefused(plan: ChangePlan, s: Snapshot)
    requires Accepted(plan, s)
    ensures SemanticFingerprint(s) == plan.source && DefaultProjection(s) == plan.sourceDefault
    ensures NamedReferences(s, plan.desired, plan.device)
  {
    IntegrityGivesNormalInputs(plan);
    BuiltPlanIntegrity(s, plan.desired, plan.device);
  }
}
