/** `apply_live_plan`: fresh planning, writes with a growing rollback stack, verification, save, or rollback
    (scripts/routerkit_netcraze_live.py:528-630). */
module LiveExecutor {
  import opened Wrappers
  import opened PlanModel
  import opened LiveModel
  import opened LivePlanner
  import opened LiveTransaction
  import opened LiveEffects
  import opened LiveVerification
  import opened LivePacket
  import opened LiveRendering
  import opened LiveApply

  /** Undoing is proven by requests that are all granted and a last reading with the old guard. */
  ghost predicate ProvenUndone(answers: nat -> Answer, from: nat, until: nat, guard: seq<string>) {
    from < until && Granted(answers, from, until) && answers(until - 1).guard == guard
  }

  /** The rollback stack, top first; stop at the first refusal. */
  method UndoAll(
    router: Router, rollback: seq<Command>, ghost before: LiveState, ghost log0: seq<Command>, ghost whole: seq<Step>,
    ghost start: Trace)
    returns (ok: bool, ghost t: Trace)
    requires Traced(whole, start) && start.undone == 0 && !start.savedAgain
    requires Reversed(rollback) == UndosFor(whole, start.ran)
    requires router.Ran(before, Written(whole, start)) && router.log == log0 + Written(whole, start)
    modifies router
    ensures t == start.(undone := t.undone) && Traced(whole, t)
    ensures router.Ran(before, Written(whole, t)) && router.log == log0 + Written(whole, t)
    ensures ok ==> t.undone == |UndosFor(whole, t.ran)|
    ensures old(router.clock) <= router.clock && ok == Granted(router.answers, old(router.clock), router.clock)
  {
    t := start;
    var stack := Reversed(rollback);
    for k := 0 to |stack|
      invariant t == start.(undone := k)
      invariant router.Ran(before, Written(whole, t)) && router.log == log0 + Written(whole, t)
      invariant router.clock == old(router.clock) + k && Granted(router.answers, old(router.clock), router.clock)
    {
      WriteUndo(whole, t);
      ok := router.Write(stack[k], before, Written(whole, t));
      if !ok {
        return false, t;
      }
      t := t.(undone := k + 1);
    }
    ok := true;
  }

  /** The rollback stack, then a save and a look at the guard; stop at the first refusal. */
  method RollBack(
    router: Router, rollback: seq<Command>, guard: seq<string>, ghost before: LiveState, ghost log0: seq<Command>,
    ghost whole: seq<Step>, ghost n: nat, ghost saved: bool)
    returns (ok: bool, ghost t: Trace)
    requires AllReversible(before, whole) && n <= |Commands(whole)| && Reversed(rollback) == UndosFor(whole, n)
    requires router.Ran(before, Written(whole, Trace(n, saved, 0, false)))
    requires router.log == log0 + Written(whole, Trace(n, saved, 0, false))
    modifies router
    ensures t.ran == n && t.saved == saved && Traced(whole, t) && router.log == log0 + Written(whole, t)
    ensures ok ==>
              SameObjects(router.config, before) && SameObjects(router.startup, before) && router.config.guard == guard
    ensures old(router.clock) <= router.clock
    ensures ok == ProvenUndone(router.answers, old(router.clock), router.clock, guard)
  {
    ok, t := UndoAll(router, rollback, before, log0, whole, Trace(n, saved, 0, false));
    if !ok {
      return;
    }
    FullRollbackRestores(before, whole, t);
    WriteSave(whole, t);
    ok := router.Write(Save, before, Written(whole, t));
    if !ok {
      return;
    }
    t := t.(savedAgain := true);
    FullRollbackRestores(before, whole, t);
    var rolled := router.Read();
    ok := rolled.Some? && rolled.value.guard == guard;
  }

  lemma {:induction false} WriteUndo(whole: seq<Step>, t: Trace)
    requires Traced(whole, t) && !t.savedAgain && t.undone < |UndosFor(whole, t.ran)|
    ensures Traced(whole, t.(undone := t.undone + 1))
    ensures Written(whole, t.(undone := t.undone + 1)) == Written(whole, t) + [UndosFor(whole, t.ran)[t.undone]]
  {
    var undos := UndosFor(whole, t.ran);
    assert undos[..t.undone + 1] == undos[..t.undone] + [undos[t.undone]];
  }

  lemma {:induction false} WriteSave(whole: seq<Step>, t: Trace)
    requires Traced(whole, t) && !t.savedAgain
    ensures Written(whole, t.(savedAgain := true)) == Written(whole, t) + [Save]
  {
  }

  lemma {:induction false} ForwardWritten(whole: seq<Step>, n: nat)
    requires n <= |Commands(whole)|
    ensures Written(whole, Trace(n, false, 0, false)) == Commands(whole)[..n]
    ensures Written(whole, Trace(n, true, 0, false)) == Commands(whole)[..n] + [Save]
  {
  }

  lemma {:induction false} PlanParts(ps: seq<Profile>, plan: LivePlan, st: LiveState, device: Option<string>)
    requires |ps| == |plan.bindings|
    ensures var a := AssignmentPayload(plan, st, device);
            && PlanSteps(ps, plan, st, device) ==
                 ProxySteps(ps, plan.bindings) + (PolicySteps(ps, plan.bindings) + AssignmentSteps(a))
            && PlanSteps(ps, plan, st, device) ==
                 ProxySteps(ps, plan.bindings) + PolicySteps(ps, plan.bindings) + AssignmentSteps(a)
  {
  }

  lemma {:induction false} NoEmptyPrefix(a: seq<Step>, b: seq<Step>)
    requires NoEmptyStep(a + b)
    ensures NoEmptyStep(a)
  {
    forall s | s in a ensures s.commands != [] {
      assert s in a + b;
    }
  }

  /** The forward part: proxies, policies, then the assignment. */
  method ApplyWrites(
    router: Router, ps: seq<Profile>, plan: LivePlan, device: Option<string>, before: LiveState,
    ghost log0: seq<Command>)
    returns (ok: bool, rollback: seq<Command>, proxies: seq<string>, policies: seq<string>, ghost n: nat)
    requires Aligned(ps, plan.bindings) && AllReversible(before, PlanSteps(ps, plan, before, device))
    requires router.Ran(before, []) && router.log == log0
    modifies router
    ensures At(router, before, log0, PlanSteps(ps, plan, before, device), n, rollback)
    ensures ok ==> n == |Commands(PlanSteps(ps, plan, before, device))|
    ensures ok ==> proxies == CreatedProxies(plan.bindings) && policies == CreatedPolicies(plan.bindings)
    ensures old(router.clock) <= router.clock && ok == Granted(router.answers, old(router.clock), router.clock)
  {
    var a, bs := AssignmentPayload(plan, before, device), plan.bindings;
    ghost var x, y, z := ProxySteps(ps, bs), PolicySteps(ps, bs), AssignmentSteps(a);
    PlanParts(ps, plan, before, device);
    ReversibleStepsHaveCommands(before, x + y + z);
    NoEmptyPrefix(x + y, z);
    NoEmptyPrefix(x, y);
    policies := [];
    ok, rollback, proxies, n := CreateProxies(router, ps, bs, before, log0, y + z);
    if !ok {
      return;
    }
    ok, rollback, policies, n := CreatePolicies(router, ps, bs, rollback, before, log0, x, z);
    if !ok {
      return;
    }
    if LiveTransaction.Writes(a) {
      var s := Step([AssignHost(a.mac.value, a.target.value)], UndoAssignment(a));
      assert x + y + z == (x + y) + [s] + [];
      ok, rollback, n := RunStep(router, s, rollback, before, log0, x + y, []);
      assert (x + y) + [s] == x + y + z;
    } else {
      assert x + y + z == x + y;
    }
  }

  /** A fresh reading whose guard is unchanged and that passes the post-apply check. */
  method Confirm(
    planner: Planner, router: Router, ps: seq<Profile>, plan: LivePlan, device: Option<string>, guard: seq<string>)
    returns (ok: bool)
    requires |ps| == |plan.bindings|
    modifies router`clock, router`config
    ensures SameObjects(router.config, old(router.config))
            && router.config.guard == router.answers(old(router.clock)).guard
    ensures router.clock == old(router.clock) + 1
    ensures ok == (router.answers(old(router.clock)).accepted && router.config.guard == guard
                   && Applied(planner, ps, plan, router.config, device))
  {
    var reading := router.Read();
    ok := reading.Some? && reading.value.guard == guard && Applied(planner, ps, plan, reading.value, device);
  }

  lemma {:induction false} NormalPlanFits(
    planner: Planner, ps: seq<Profile>, st: LiveState, mac: Option<string>, slot: Option<int>, allowMove: bool)
    requires Normal(ps) && LivePlanFor(planner, ps, st, mac, slot, allowMove).Ok?
    ensures var plan := LivePlanFor(planner, ps, st, mac, slot, allowMove).value;
            && PlanFits(planner, ps, plan, st, DeviceOf(mac)) && Aligned(ps, plan.bindings)
            && AllReversible(st, PlanSteps(ps, plan, st, DeviceOf(mac)))
  {
    LivePlanFits(planner, ps, st, mac, slot, allowMove);
    var plan := LivePlanFor(planner, ps, st, mac, slot, allowMove).value;
    BoundSlots(planner, st, ps, plan.bindings);
    CommandsReachExpected(planner, ps, plan, st, DeviceOf(mac));
  }

  predicate WriteRequired(plan: LivePlan) {
    (exists b :: b in plan.bindings && (b.proxyAction.Create? || b.policyAction.Create?))
    || plan.assignment.AssignNew? || plan.assignment.MoveAssignment?
  }

  lemma {:induction false} WriteRequiredMeansChange(
    planner: Planner, ps: seq<Profile>, plan: LivePlan, st: LiveState, device: Option<string>)
    requires PlanFits(planner, ps, plan, st, device)
    ensures WriteRequired(plan) <==> ExpectedPostState(ps, plan, st, device) != Ok(st)
  {
    if CreatesNothing(plan.bindings) {
      NoCreationNoChange(st.proxies, st.policies, ps, plan.bindings);
      WritingChanges(ps, plan, st, device);
    } else {
      CreationChanges(planner, ps, plan, st, device);
    }
  }

  /** A plan that planning again confirms: it fits, and if nothing has to be written it is applied already. */
  lemma {:induction false} StandingPlan(
    planner: Planner, ps: seq<Profile>, plan: LivePlan, st: LiveState, mac: Option<string>)
    requires Normal(ps)
    requires LivePlanFor(planner, ps, st, mac, plan.selectedSlot, plan.assignment.MoveAssignment?) == Ok(plan)
    ensures PlanFits(planner, ps, plan, st, DeviceOf(mac)) && Aligned(ps, plan.bindings)
    ensures AllReversible(st, PlanSteps(ps, plan, st, DeviceOf(mac)))
    ensures WriteRequired(plan) <==> ExpectedPostState(ps, plan, st, DeviceOf(mac)) != Ok(st)
    ensures !WriteRequired(plan) ==> Applied(planner, ps, plan, st, DeviceOf(mac))
  {
    NormalPlanFits(planner, ps, st, mac, plan.selectedSlot, plan.assignment.MoveAssignment?);
    WriteRequiredMeansChange(planner, ps, plan, st, DeviceOf(mac));
    if !WriteRequired(plan) {
      ExpectedStateIsApplied(planner, ps, plan, st, DeviceOf(mac), st);
    }
  }

  /** A confirmed configuration after all commands is exactly the expected post-state. */
  lemma {:induction false} ConfirmedIsExpected(
    planner: Planner, ps: seq<Profile>, plan: LivePlan, st: LiveState, device: Option<string>, config: LiveState)
    requires PlanFits(planner, ps, plan, st, device)
    requires SameObjects(config, ExecAll(st, Commands(PlanSteps(ps, plan, st, device)))) && config.guard == st.guard
    requires Applied(planner, ps, plan, config, device)
    ensures ExpectedPostState(ps, plan, st, device) == Ok(config) && CreatedAreEnabled(ps, plan.bindings)
  {
    CommandsKeepGuard(st, Commands(PlanSteps(ps, plan, st, device)));
    CommandsAreAppliedIffEnabled(planner, ps, plan, st, device);
    CommandsReachExpected(planner, ps, plan, st, device);
  }

  lemma {:induction false} UnconfirmedIsDisabled(
    planner: Planner, ps: seq<Profile>, plan: LivePlan, st: LiveState, device: Option<string>, config: LiveState)
    requires PlanFits(planner, ps, plan, st, device)
    requires SameObjects(config, ExecAll(st, Commands(PlanSteps(ps, plan, st, device)))) && config.guard == st.guard
    requires !Applied(planner, ps, plan, config, device)
    ensures !CreatedAreEnabled(ps, plan.bindings)
  {
    CommandsKeepGuard(st, Commands(PlanSteps(ps, plan, st, device)));
    CommandsAreAppliedIffEnabled(planner, ps, plan, st, device);
    assert config == ExecAll(st, Commands(PlanSteps(ps, plan, st, device)));
  }

  /** The result reported for a complete run. */
  function FullResult(plan: LivePlan, st: LiveState, device: Option<string>): ApplyResult {
    ApplyResult(CreatedProxies(plan.bindings), CreatedPolicies(plan.bindings),
                LiveTransaction.Writes(AssignmentPayload(plan, st, device)), true, true, true, false)
  }

  /** The router is where the trace says, with the matching rollback stack. */
  ghost predicate Reached(
    router: Router, before: LiveState, log0: seq<Command>, steps: seq<Step>, n: nat, saved: bool,
    rollback: seq<Command>)
    reads router
  {
    var t := Trace(n, saved, 0, false);
    && n <= |Commands(steps)| && router.Ran(before, Written(steps, t)) && router.log == log0 + Written(steps, t)
    && Reversed(rollback) == UndosFor(steps, n)
  }

  lemma {:induction false} ReachedForward(
    router: Router, before: LiveState, log0: seq<Command>, steps: seq<Step>, n: nat, rollback: seq<Command>)
    requires At(router, before, log0, steps, n, rollback)
    ensures Reached(router, before, log0, steps, n, false, rollback)
    ensures router.Ran(before, Commands(steps)[..n])
  {
    ForwardWritten(steps, n);
  }

  /** All commands have run under the old guard, and still the check fails. */
  ghost predicate Unconfirmed(
    planner: Planner, router: Router, ps: seq<Profile>, plan: LivePlan, device: Option<string>, before: LiveState)
    requires |ps| == |plan.bindings|
    reads router
  {
    && SameObjects(router.config, ExecAll(before, Commands(PlanSteps(ps, plan, before, device))))
    && router.config.guard == before.guard && !Applied(planner, ps, plan, router.config, device)
  }

  /** Write and confirm. */
  method WriteAndConfirm(
    planner: Planner, router: Router, ps: seq<Profile>, plan: LivePlan, device: Option<string>, before: LiveState,
    ghost log0: seq<Command>)
    returns (ok: bool, rollback: seq<Command>, result: ApplyResult, ghost n: nat)
    requires Aligned(ps, plan.bindings) && AllReversible(before, PlanSteps(ps, plan, before, device))
    requires SameObjects(router.config, before) && router.log == log0
    modifies router
    ensures Reached(router, before, log0, PlanSteps(ps, plan, before, device), n, false, rollback)
    ensures ok ==> n == |Commands(PlanSteps(ps, plan, before, device))| && result == FullResult(plan, before, device)
    ensures ok ==> SameObjects(router.config, ExecAll(before, Commands(PlanSteps(ps, plan, before, device))))
    ensures ok ==> router.config.guard == before.guard && Applied(planner, ps, plan, router.config, device)
    ensures old(router.clock) <= router.clock
    ensures !ok && Steady(router.answers, old(router.clock), router.clock, before.guard) ==>
              Unconfirmed(planner, router, ps, plan, device, before)
  {
    ghost var steps := PlanSteps(ps, plan, before, device);
    var proxies, policies;
    ok, rollback, proxies, policies, n := ApplyWrites(router, ps, plan, device, before, log0);
    result := ApplyResult(proxies, policies, LiveTransaction.Writes(AssignmentPayload(plan, before, device)), true,
                          true, true, false);
    ReachedForward(router, before, log0, steps, n, rollback);
    if !ok {
      return;
    }
    assert Commands(steps)[..n] == Commands(steps);
    ok := Confirm(planner, router, ps, plan, device, before.guard);
  }

  /** Save what has been confirmed, and confirm it again: under steady answers this succeeds. */
  method SaveAndConfirm(
    planner: Planner, router: Router, ps: seq<Profile>, plan: LivePlan, device: Option<string>, before: LiveState,
    ghost log0: seq<Command>, ghost rollback: seq<Command>)
    returns (ok: bool, ghost saved: bool)
    requires |ps| == |plan.bindings|
    requires var steps := PlanSteps(ps, plan, before, device);
             Reached(router, before, log0, steps, |Commands(steps)|, false, rollback)
    requires router.config.guard == before.guard && Applied(planner, ps, plan, router.config, device)
    requires SameObjects(router.config, ExecAll(before, Commands(PlanSteps(ps, plan, before, device))))
    modifies router
    ensures var steps := PlanSteps(ps, plan, before, device);
            Reached(router, before, log0, steps, |Commands(steps)|, saved, rollback)
    ensures ok ==> saved && router.config.guard == before.guard && Applied(planner, ps, plan, router.config, device)
    ensures ok ==> SameObjects(router.startup, router.config)
    ensures old(router.clock) <= router.clock
    ensures !ok ==> !Steady(router.answers, old(router.clock), router.clock, before.guard)
  {
    ghost var steps := PlanSteps(ps, plan, before, device);
    ghost var n := |Commands(steps)|;
    ghost var confirmed := router.config;
    ForwardWritten(steps, n);
    SavingIsSilent(before, Commands(steps), true);
    assert Commands(steps)[..n] == Commands(steps);
    ok := router.Write(Save, before, Written(steps, Trace(n, false, 0, false)));
    saved := ok;
    if !ok {
      return;
    }
    assert SameObjects(router.config, confirmed);
    ok := Confirm(planner, router, ps, plan, device, before.guard);
    assert router.config.guard == before.guard ==> router.config == confirmed;
  }

  /** Write, confirm, save, confirm; stop at the first failure. */
  method Forward(
    planner: Planner, router: Router, ps: seq<Profile>, plan: LivePlan, device: Option<string>, before: LiveState,
    ghost log0: seq<Command>)
    returns (ok: bool, rollback: seq<Command>, result: ApplyResult, ghost n: nat, ghost saved: bool)
    requires Aligned(ps, plan.bindings) && AllReversible(before, PlanSteps(ps, plan, before, device))
    requires SameObjects(router.config, before) && router.log == log0
    modifies router
    ensures Reached(router, before, log0, PlanSteps(ps, plan, before, device), n, saved, rollback)
    ensures ok ==> n == |Commands(PlanSteps(ps, plan, before, device))| && saved
    ensures ok ==> router.config.guard == before.guard && Applied(planner, ps, plan, router.config, device)
    ensures ok ==> SameObjects(router.startup, router.config) && result == FullResult(plan, before, device)
    ensures old(router.clock) <= router.clock
    ensures !ok && Steady(router.answers, old(router.clock), router.clock, before.guard) ==>
              Unconfirmed(planner, router, ps, plan, device, before)
  {
    ghost var steps := PlanSteps(ps, plan, before, device);
    saved := false;
    ok, rollback, result, n := WriteAndConfirm(planner, router, ps, plan, device, before, log0);
    if !ok {
      return;
    }
    ok, saved := SaveAndConfirm(planner, router, ps, plan, device, before, log0, rollback);
  }

  lemma {:induction false} CompleteRunReaches(
    router: Router, before: LiveState, log0: seq<Command>, steps: seq<Step>, rollback: seq<Command>)
    requires Reached(router, before, log0, steps, |Commands(steps)|, true, rollback)
    ensures SameObjects(router.config, ExecAll(before, Commands(steps)))
  {
    ForwardWritten(steps, |Commands(steps)|);
    SavingIsSilent(before, Commands(steps), true);
    assert Commands(steps)[..|Commands(steps)|] == Commands(steps);
  }

  /** What a transaction leaves behind: verified exactly as expected, or exactly as before, or unproven. */
  ghost predicate Settled(
    ps: seq<Profile>, plan: LivePlan, device: Option<string>, before: LiveState, r: Result<ApplyResult, LiveError>,
    t: Trace, config: LiveState, startup: LiveState)
    requires |ps| == |plan.bindings|
  {
    match r
    case Ok(result) =>
      && ExpectedPostState(ps, plan, before, device) == Ok(config) && CreatedAreEnabled(ps, plan.bindings)
      && SameObjects(startup, config) && result == FullResult(plan, before, device)
      && t == Trace(|Commands(PlanSteps(ps, plan, before, device))|, true, 0, false)
    case Err(Refused) => SameObjects(config, before) && SameObjects(startup, before)
    case Err(RollbackUnproven) => true
  }

  /** Everything after the backup. */
  method Transact(
    planner: Planner, router: Router, ps: seq<Profile>, plan: LivePlan, device: Option<string>, before: LiveState)
    returns (r: Result<ApplyResult, LiveError>, ghost t: Trace, ghost undoFrom: nat)
    requires PlanFits(planner, ps, plan, before, device) && Aligned(ps, plan.bindings)
    requires AllReversible(before, PlanSteps(ps, plan, before, device))
    requires SameObjects(router.config, before)
    modifies router
    ensures var steps := PlanSteps(ps, plan, before, device);
            Traced(steps, t) && router.log == old(router.log) + Written(steps, t)
    ensures Settled(ps, plan, device, before, r, t, router.config, router.startup)
    ensures old(router.clock) <= undoFrom <= router.clock
    ensures r.Err? && Steady(router.answers, old(router.clock), undoFrom, before.guard) ==>
              !CreatedAreEnabled(ps, plan.bindings)
    ensures r.Err? ==>
              (r == Err(RollbackUnproven) <==> !ProvenUndone(router.answers, undoFrom, router.clock, before.guard))
  {
    ghost var steps, log0 := PlanSteps(ps, plan, before, device), router.log;
    var ok, rollback, result;
    ghost var n, saved;
    ok, rollback, result, n, saved := Forward(planner, router, ps, plan, device, before, log0);
    if ok {
      CompleteRunReaches(router, before, log0, steps, rollback);
      ConfirmedIsExpected(planner, ps, plan, before, device, router.config);
      t := Trace(n, true, 0, false);
      return Ok(result), t, router.clock;
    }
    undoFrom := router.clock;
    if Steady(router.answers, old(router.clock), undoFrom, before.guard) {
      UnconfirmedIsDisabled(planner, ps, plan, before, device, router.config);
    }
    var rolledBack;
    rolledBack, t := RollBack(router, rollback, before.guard, before, log0, steps, n, saved);
    r := if rolledBack then Err(Refused) else Err(RollbackUnproven);
  }

  /** A backup first; without one nothing is written. */
  method BackUpAndTransact(
    planner: Planner, router: Router, ps: seq<Profile>, plan: LivePlan, device: Option<string>, before: LiveState)
    returns (r: Result<ApplyResult, LiveError>, ghost run: Option<Trace>, ghost undoFrom: nat)
    requires PlanFits(planner, ps, plan, before, device) && Aligned(ps, plan.bindings)
    requires AllReversible(before, PlanSteps(ps, plan, before, device))
    requires SameObjects(router.config, before)
    modifies router
    ensures if run.None? then r == Err(Refused) && router.log == old(router.log)
                              && router.startup == old(router.startup)
                              && SameObjects(router.config, before)
            else
              && Traced(PlanSteps(ps, plan, before, device), run.value)
              && router.log == old(router.log) + Written(PlanSteps(ps, plan, before, device), run.value)
              && Settled(ps, plan, device, before, r, run.value, router.config, router.startup)
    ensures old(router.clock) <= undoFrom <= router.clock
    ensures r.Err? && Steady(router.answers, old(router.clock), undoFrom, before.guard) ==>
              !CreatedAreEnabled(ps, plan.bindings)
    ensures run.Some? && r.Err? ==>
              (r == Err(RollbackUnproven) <==> !ProvenUndone(router.answers, undoFrom, router.clock, before.guard))
  {
    var backedUp := router.Attempt();
    if !backedUp {
      return Err(Refused), None, router.clock;
    }
    ghost var t;
    r, t, undoFrom := Transact(planner, router, ps, plan, device, before);
    run := Some(t);
  }

  // ---- The whole application ----

  /** Apply a plan that planning again has confirmed. */
  method ApplyStanding(
    planner: Planner, router: Router, ps: seq<Profile>, plan: LivePlan, mac: Option<string>, before: LiveState)
    returns (r: Result<ApplyResult, LiveError>, ghost run: Option<Trace>, ghost undoFrom: nat)
    requires Normal(ps) && SameObjects(router.config, before) && router.config.guard == before.guard
    requires LivePlanFor(planner, ps, before, mac, plan.selectedSlot, plan.assignment.MoveAssignment?) == Ok(plan)
    modifies router
    ensures PlanFits(planner, ps, plan, before, DeviceOf(mac))
    ensures if run.None? then router.log == old(router.log) && router.startup == old(router.startup)
                                   && SameObjects(router.config, before) && r != Err(RollbackUnproven)
            else
              && Traced(PlanSteps(ps, plan, before, DeviceOf(mac)), run.value)
              && router.log == old(router.log) + Written(PlanSteps(ps, plan, before, DeviceOf(mac)), run.value)
              && Settled(ps, plan, DeviceOf(mac), before, r, run.value, router.config, router.startup)
    ensures r.Ok? ==> ExpectedPostState(ps, plan, before, DeviceOf(mac)) == Ok(router.config)
    ensures r.Ok? ==> r.value.verified && (r.value.noop <==> router.config == before)
    ensures old(router.clock) <= undoFrom <= router.clock
    ensures r.Err? && Steady(router.answers, old(router.clock), undoFrom, before.guard) ==>
              !CreatedAreEnabled(ps, plan.bindings)
    ensures run.Some? && r.Err? ==>
              (r == Err(RollbackUnproven) <==> !ProvenUndone(router.answers, undoFrom, router.clock, before.guard))
  {
    var device := DeviceOf(mac);
    StandingPlan(planner, ps, plan, before, mac);
    if !WriteRequired(plan) {
      run, undoFrom := None, router.clock;
      if !Applied(planner, ps, plan, before, device) {
        assert false;
        r := Err(Refused);
        return;
      }
      r := Ok(ApplyResult([], [], false, false, false, true, true));
      return;
    }
    r, run, undoFrom := BackUpAndTransact(planner, router, ps, plan, device, before);
  }

  /** Read the router and plan again: the state, if the plan still stands. */
  method Replan(planner: Planner, router: Router, ps: seq<Profile>, plan: LivePlan, mac: Option<string>)
    returns (observed: Option<LiveState>)
    modifies router`clock, router`config
    ensures SameObjects(router.config, old(router.config)) && router.clock == old(router.clock) + 1
    ensures observed == None || observed == Some(router.config)
    ensures observed.Some? <==>
              router.answers(old(router.clock)).accepted
              && LivePlanFor(planner, ps, router.config, mac, plan.selectedSlot, plan.assignment.MoveAssignment?)
                 == Ok(plan)
  {
    observed := router.Read();
    if observed.Some? {
      var again := BuildLivePlan(
        planner, ps, observed.value, mac, plan.selectedSlot, plan.assignment.MoveAssignment?);
      if again != Ok(plan) {
        return None;
      }
    }
  }

  /** Apply a plan: with any request failing at any point, and the guard changing at will, a success means the router
      holds exactly the planned post-state under an unchanged guard and has saved it; an ordinary error means its
      objects are exactly those before the call; otherwise the rollback is reported as unproven, and that exactly when
      one of its requests is refused or its last reading shows another guard. Nothing fails without a cause: up to where
      undoing begins some request is refused, or the guard moves, or planning again gives another plan, or a profile
      to be created is disabled. */
  method ApplyLivePlan(planner: Planner, router: Router, ps: seq<Profile>, plan: LivePlan, mac: Option<string>)
    returns (r: Result<ApplyResult, LiveError>, ghost before: LiveState, ghost run: Option<Trace>, ghost undoFrom: nat)
    requires Normal(ps)
    modifies router
    ensures SameObjects(before, old(router.config))
    ensures if run.None? then router.log == old(router.log) && router.startup == old(router.startup)
                                   && SameObjects(router.config, before) && r != Err(RollbackUnproven)
            else
              && PlanFits(planner, ps, plan, before, DeviceOf(mac))
              && Traced(PlanSteps(ps, plan, before, DeviceOf(mac)), run.value)
              && router.log == old(router.log) + Written(PlanSteps(ps, plan, before, DeviceOf(mac)), run.value)
              && Settled(ps, plan, DeviceOf(mac), before, r, run.value, router.config, router.startup)
    ensures r.Ok? ==> PlanFits(planner, ps, plan, before, DeviceOf(mac))
                      && ExpectedPostState(ps, plan, before, DeviceOf(mac)) == Ok(router.config)
    ensures r.Ok? ==> r.value.verified && (r.value.noop <==> router.config == before)
    ensures r == Err(Refused) ==> SameObjects(router.config, old(router.config))
    ensures old(router.clock) <= undoFrom <= router.clock
    ensures r.Err? && Steady(router.answers, old(router.clock), undoFrom, before.guard)
            && LivePlanFor(planner, ps, before, mac, plan.selectedSlot, plan.assignment.MoveAssignment?) == Ok(plan) ==>
              |ps| == |plan.bindings| && !CreatedAreEnabled(ps, plan.bindings)
    ensures run.Some? && r.Err? ==>
              (r == Err(RollbackUnproven) <==> !ProvenUndone(router.answers, undoFrom, router.clock, before.guard))
  {
    run := None;
    var observed := Replan(planner, router, ps, plan, mac);
    before, undoFrom := router.config, router.clock;
    if observed.None? {
      r := Err(Refused);
      return;
    }
    r, run, undoFrom := ApplyStanding(planner, router, ps, plan, mac, observed.value);
  }

  lemma {:induction false} CompleteTrace(
    planner: Planner, ps: seq<Profile>, plan: LivePlan, st: LiveState, device: Option<string>)
    requires PlanFits(planner, ps, plan, st, device)
    ensures var steps := PlanSteps(ps, plan, st, device);
            && Written(steps, Trace(|Commands(steps)|, true, 0, false)) == Commands(steps) + [Save]
            && UndosFor(steps, |Commands(steps)|) == Undos(steps)
  {
    var steps := PlanSteps(ps, plan, st, device);
    CommandsReachExpected(planner, ps, plan, st, device);
    ReversibleStepsHaveCommands(st, steps);
    CompleteRunUndos(steps);
    ForwardWritten(steps, |Commands(steps)|);
    assert Commands(steps)[..|Commands(steps)|] == Commands(steps);
  }

  lemma {:induction false} RequestNormalises(ps: seq<Profile>, mac: Option<string>, slot: Option<int>)
    requires mac.Some? ==> DeviceOf(mac).Some?
    ensures DeviceRequest(ps, mac, slot) == DeviceRequest(ps, DeviceOf(mac), slot)
  {
    DeviceIsNormal(mac);
  }

  lemma {:induction false} NormalisedRequest(
    planner: Planner, ps: seq<Profile>, st: LiveState, mac: Option<string>, slot: Option<int>, allowMove: bool)
    requires mac.Some? ==> DeviceOf(mac).Some?
    ensures LivePlanFor(planner, ps, st, mac, slot, allowMove) ==
            LivePlanFor(planner, ps, st, DeviceOf(mac), slot, allowMove)
  {
    RequestNormalises(ps, mac, slot);
  }

  lemma {:induction false} PacketBody(
    ps: seq<Profile>, st: LiveState, mac: Option<string>, slot: Option<int>, allowMove: bool)
    requires PacketFor(ps, CONTRACT, st, mac, slot, allowMove).Ok?
    ensures LivePlanFor(BySemantics, ps, st, DeviceOf(mac), slot, allowMove).Ok? && (mac.Some? ==> DeviceOf(mac).Some?)
    ensures var body := PacketFor(ps, CONTRACT, st, mac, slot, allowMove).value.body;
            var plan := LivePlanFor(BySemantics, ps, st, DeviceOf(mac), slot, allowMove).value;
            && |plan.bindings| == |ps|
            && body.commands == Commands(PlanSteps(ps, plan, st, DeviceOf(mac)))
            && body.rollbackCommands == Undos(PlanSteps(ps, plan, st, DeviceOf(mac)))
  {
  }

  /** The executor and the packet agree: a complete run writes the packet's commands in order and then saves, and the
      rollback stack it has built by then is the packet's rollback list. */
  lemma {:induction false} ExecutorFollowsPacket(
    ps: seq<Profile>, st: LiveState, mac: Option<string>, slot: Option<int>, allowMove: bool)
    requires DistinctPorts(ps) && PacketFor(ps, CONTRACT, st, mac, slot, allowMove).Ok?
    ensures var body := PacketFor(ps, CONTRACT, st, mac, slot, allowMove).value.body;
            var planned := LivePlanFor(BySemantics, ps, st, mac, slot, allowMove);
            && planned.Ok? && |planned.value.bindings| == |ps|
            && var steps := PlanSteps(ps, planned.value, st, DeviceOf(mac));
            && Written(steps, Trace(|Commands(steps)|, true, 0, false)) == body.commands + [Save]
            && UndosFor(steps, |Commands(steps)|) == body.rollbackCommands
  {
    PacketBody(ps, st, mac, slot, allowMove);
    NormalisedRequest(BySemantics, ps, st, mac, slot, allowMove);
    LivePlanFits(BySemantics, ps, st, mac, slot, allowMove);
    CompleteTrace(BySemantics, ps, LivePlanFor(BySemantics, ps, st, mac, slot, allowMove).value, st, DeviceOf(mac));
  }
}
