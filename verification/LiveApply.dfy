/** Applying a live plan to a router that may refuse any request (scripts/routerkit_netcraze_live.py:528-630). */
module LiveApply {
  import opened Wrappers
  import opened PlanModel
  import opened LiveModel
  import opened LiveTransaction
  import opened LiveVerification
  import opened LiveRendering

  // ---- The router ----

  /** How a request is answered, and what the default-policy guard reads as from then on. */
  datatype Answer = Answer(accepted: bool, guard: seq<string>)

  /** Every request of a stretch of time is accepted. */
  ghost predicate Granted(answers: nat -> Answer, from: nat, until: nat) {
    forall i :: from <= i < until ==> answers(i).accepted
  }

  /** Besides, the guard reads the same throughout. */
  ghost predicate Steady(answers: nat -> Answer, from: nat, until: nat, guard: seq<string>) {
    forall i :: from <= i < until ==> answers(i).accepted && answers(i).guard == guard
  }

  class Router {
    /** The answers to come, in order of request: any future is possible. */
    const answers: nat -> Answer
    var clock: nat
    var config: LiveState
    var startup: LiveState
    /** Every accepted write. */
    ghost var log: seq<Command>

    constructor (answers: nat -> Answer, config: LiveState, startup: LiveState)
      ensures this.answers == answers && this.config == config && this.startup == startup && log == []
    {
      this.answers, clock, this.config, this.startup, log := answers, 0, config, startup, [];
    }

    /** The configured objects are those left by the given writes. */
    ghost predicate Ran(before: LiveState, writes: seq<Command>)
      reads this
    {
      SameObjects(config, ExecAll(before, writes))
    }

    /** A request that changes nothing: it is answered or fails. */
    method Attempt() returns (ok: bool)
      modifies this`clock, this`config
      ensures SameObjects(config, old(config)) && config.guard == answers(old(clock)).guard
      ensures clock == old(clock) + 1 && ok == answers(old(clock)).accepted
    {
      var answer := answers(clock);
      clock, config := clock + 1, config.(guard := answer.guard);
      return answer.accepted;
    }

    /** Read and parse the running configuration. */
    method Read() returns (r: Option<LiveState>)
      modifies this`clock, this`config
      ensures SameObjects(config, old(config)) && config.guard == answers(old(clock)).guard
      ensures clock == old(clock) + 1 && r == if answers(old(clock)).accepted then Some(config) else None
    {
      var ok := Attempt();
      return if ok then Some(config) else None;
    }

    /** One write: accepted with its full effect, or refused without any. */
    method Write(c: Command, ghost before: LiveState, ghost writes: seq<Command>) returns (ok: bool)
      requires Ran(before, writes)
      modifies this
      ensures if ok then Ran(before, writes + [c]) && log == old(log) + [c] else Ran(before, writes) && log == old(log)
      ensures startup == if ok && c.Save? then config else old(startup)
      ensures clock == old(clock) + 1 && ok == answers(old(clock)).accepted && config.guard == answers(old(clock)).guard
    {
      ok := Attempt();
      if ok {
        SameObjectsExec(config, ExecAll(before, writes), c);
        ExecAppended(before, writes, [c]);
        assert ExecAll(ExecAll(before, writes), [c]) == Exec(ExecAll(before, writes), c);
        config := Exec(config, c);
        if c.Save? {
          startup := config;
        }
        log := log + [c];
      }
    }
  }

  lemma {:induction false} SameObjectsExec(a: LiveState, b: LiveState, c: Command)
    requires SameObjects(a, b)
    ensures SameObjects(Exec(a, c), Exec(b, c))
  {
  }

  // ---- Undoing part of a run ----

  /** The rollback stack, top first, once the first n commands of the steps have been accepted. */
  ghost function UndosFor(steps: seq<Step>, n: nat): seq<Command>
    decreases |steps|
  {
    if steps == [] || n == 0 then []
    else if n <= |steps[0].commands| then [steps[0].undo]
    else UndosFor(steps[1..], n - |steps[0].commands|) + [steps[0].undo]
  }

  lemma {:induction false} ExecPrefixOfSteps(st: LiveState, s: Step, rest: seq<Command>, n: nat)
    requires |s.commands| <= n <= |s.commands| + |rest|
    ensures ExecAll(st, (s.commands + rest)[..n]) == ExecAll(ExecAll(st, s.commands), rest[..n - |s.commands|])
  {
    assert (s.commands + rest)[..n] == s.commands + rest[..n - |s.commands|];
    ExecAppended(st, s.commands, rest[..n - |s.commands|]);
  }

  /** However far a reversible run got, its rollback stack takes it back to the start. */
  lemma {:induction false} PartialRunUndone(st: LiveState, steps: seq<Step>, n: nat)
    requires AllReversible(st, steps) && n <= |Commands(steps)|
    ensures ExecAll(ExecAll(st, Commands(steps)[..n]), UndosFor(steps, n)) == st
    decreases |steps|
  {
    if steps != [] && n > 0 {
      var s, rest := steps[0], steps[1..];
      if n <= |s.commands| {
        assert Commands(steps)[..n] == s.commands[..n];
        var mid := ExecAll(st, s.commands[..n]);
        assert ExecAll(mid, [s.undo]) == Exec(mid, s.undo);
      } else {
        var mid, m := ExecAll(st, s.commands), n - |s.commands|;
        PartialRunUndone(mid, rest, m);
        ExecPrefixOfSteps(st, s, Commands(rest), n);
        ExecAppended(ExecAll(mid, Commands(rest)[..m]), UndosFor(rest, m), [s.undo]);
        assert s.commands[..|s.commands|] == s.commands;
        assert ExecAll(mid, [s.undo]) == Exec(mid, s.undo);
      }
    } else {
      assert Commands(steps)[..n] == [];
    }
  }

  predicate NoEmptyStep(steps: seq<Step>) {
    forall s :: s in steps ==> s.commands != []
  }

  lemma {:induction false} StepsHaveCommands(steps: seq<Step>)
    requires NoEmptyStep(steps) && steps != []
    ensures Commands(steps) != []
  {
    assert steps[0] in steps;
    assert |Commands(steps)| >= |steps[0].commands|;
  }

  /** A complete run leaves the full rollback list. */
  lemma {:induction false} CompleteRunUndos(steps: seq<Step>)
    requires NoEmptyStep(steps)
    ensures UndosFor(steps, |Commands(steps)|) == Undos(steps)
    decreases |steps|
  {
    if steps != [] {
      assert steps[0] in steps;
      CompleteRunUndos(steps[1..]);
      if steps[1..] != [] {
        StepsHaveCommands(steps[1..]);
      }
    }
  }

  /** With some steps done and the first n commands of the next one accepted, the stack holds their undo commands. */
  lemma {:induction false} UndosForDone(done: seq<Step>, s: Step, rest: seq<Step>, n: nat)
    requires NoEmptyStep(done) && n <= |s.commands|
    ensures UndosFor(done + [s] + rest, |Commands(done)| + n) == (if n == 0 then [] else [s.undo]) + Undos(done)
    decreases |done|
  {
    var all := done + [s] + rest;
    if done == [] {
      assert all[0] == s && all[1..] == rest;
    } else {
      assert done[0] in done;
      assert all[0] == done[0] && all[1..] == done[1..] + [s] + rest;
      UndosForDone(done[1..], s, rest, n);
      var head, m := |done[0].commands|, |Commands(done[1..])| + n;
      assert |Commands(done)| + n == head + m;
      if done[1..] != [] {
        StepsHaveCommands(done[1..]);
      }
    }
  }

  lemma {:induction false} CommandsOfDone(done: seq<Step>, s: Step, rest: seq<Step>, n: nat)
    requires n <= |s.commands|
    ensures |Commands(done)| + n <= |Commands(done + [s] + rest)|
    ensures Commands(done + [s] + rest)[..|Commands(done)| + n] == Commands(done) + s.commands[..n]
  {
    CommandsAppend(done + [s], rest);
    CommandsAppend(done, [s]);
    assert Commands([s]) == s.commands + [];
    assert Commands(done + [s] + rest) == Commands(done) + s.commands + Commands(rest);
  }

  // ---- The executor ----

  datatype ApplyResult = ApplyResult(
    createdProxies: seq<string>, createdPolicies: seq<string>, assignmentChanged: bool, writeRequired: bool,
    saved: bool, verified: bool, noop: bool)

  /** What was written: the first `ran` commands, perhaps a save, `undone` rollback commands, perhaps a save. */
  datatype Trace = Trace(ran: nat, saved: bool, undone: nat, savedAgain: bool)

  ghost predicate Traced(steps: seq<Step>, t: Trace) {
    t.ran <= |Commands(steps)| && t.undone <= |UndosFor(steps, t.ran)|
  }

  function SaveIf(b: bool): seq<Command> {
    if b then [Save] else []
  }

  ghost function Written(steps: seq<Step>, t: Trace): seq<Command>
    requires Traced(steps, t)
  {
    Commands(steps)[..t.ran] + SaveIf(t.saved) + UndosFor(steps, t.ran)[..t.undone] + SaveIf(t.savedAgain)
  }

  /** Saving changes nothing in the running configuration, and a full rollback restores it. */
  lemma {:induction false} FullRollbackRestores(st: LiveState, steps: seq<Step>, t: Trace)
    requires AllReversible(st, steps) && Traced(steps, t) && t.undone == |UndosFor(steps, t.ran)|
    ensures ExecAll(st, Written(steps, t)) == st
  {
    var forward, undos := Commands(steps)[..t.ran], UndosFor(steps, t.ran);
    assert undos[..t.undone] == undos;
    PartialRunUndone(st, steps, t.ran);
    SavingIsSilent(st, forward, t.saved);
    ExecAppended(st, forward + SaveIf(t.saved), undos);
    SavingIsSilent(st, forward + SaveIf(t.saved) + undos, t.savedAgain);
  }

  lemma {:induction false} SavingIsSilent(st: LiveState, cs: seq<Command>, b: bool)
    ensures ExecAll(st, cs + SaveIf(b)) == ExecAll(st, cs)
  {
    ExecAppended(st, cs, SaveIf(b));
    var mid := ExecAll(st, cs);
    assert ExecAll(mid, []) == mid && ExecAll(mid, [Save]) == Exec(mid, Save);
  }

  lemma {:induction false} ReversibleStepsHaveCommands(st: LiveState, steps: seq<Step>)
    requires AllReversible(st, steps)
    ensures NoEmptyStep(steps)
    decreases |steps|
  {
    if steps != [] {
      ReversibleStepsHaveCommands(ExecAll(st, steps[0].commands), steps[1..]);
      assert steps == [steps[0]] + steps[1..];
    }
  }

  /** After the first n commands of the steps: the configuration, the log and the rollback stack. */
  ghost predicate At(
    router: Router, before: LiveState, log0: seq<Command>, whole: seq<Step>, n: nat, rollback: seq<Command>)
    reads router
  {
    && n <= |Commands(whole)|
    && router.Ran(before, Commands(whole)[..n]) && router.log == log0 + Commands(whole)[..n]
    && Reversed(rollback) == UndosFor(whole, n)
  }

  lemma {:induction false} CommandAt(done: seq<Step>, s: Step, rest: seq<Step>, j: nat)
    requires j < |s.commands|
    ensures var whole := Commands(done + [s] + rest);
            && |Commands(done)| + j < |whole|
            && whole[..|Commands(done)| + j + 1] == whole[..|Commands(done)| + j] + [s.commands[j]]
  {
    CommandsOfDone(done, s, rest, j);
    CommandsOfDone(done, s, rest, j + 1);
    assert s.commands[..j + 1] == s.commands[..j] + [s.commands[j]];
  }

  lemma {:induction false} StepBoundary(done: seq<Step>, s: Step)
    ensures |Commands(done + [s])| == |Commands(done)| + |s.commands|
  {
    CommandsAppend(done, [s]);
    assert Commands([s]) == s.commands + [];
  }

  /** One step: its first command, then the undo is pushed, then its other commands; stop at the first refusal. */
  method RunStep(
    router: Router, s: Step, rollback: seq<Command>, ghost before: LiveState, ghost log0: seq<Command>,
    ghost done: seq<Step>, ghost rest: seq<Step>)
    returns (ok: bool, pushed: seq<Command>, ghost n: nat)
    requires s.commands != [] && NoEmptyStep(done)
    requires At(router, before, log0, done + [s] + rest, |Commands(done)|, rollback)
    modifies router
    ensures At(router, before, log0, done + [s] + rest, n, pushed)
    ensures ok ==> n == |Commands(done + [s])|
    ensures old(router.clock) <= router.clock && ok == Granted(router.answers, old(router.clock), router.clock)
  {
    ghost var whole, base := done + [s] + rest, |Commands(done)|;
    pushed, n := rollback, base;
    for j := 0 to |s.commands|
      invariant n == base + j && n <= |Commands(whole)|
      invariant router.Ran(before, Commands(whole)[..n]) && router.log == log0 + Commands(whole)[..n]
      invariant pushed == if j == 0 then rollback else rollback + [s.undo]
      invariant router.clock == old(router.clock) + j && Granted(router.answers, old(router.clock), router.clock)
    {
      CommandAt(done, s, rest, j);
      var accepted := router.Write(s.commands[j], before, Commands(whole)[..n]);
      if !accepted {
        PushedStack(done, s, rest, j, rollback);
        return false, pushed, n;
      }
      n := n + 1;
      if j == 0 {
        pushed := pushed + [s.undo];
      }
    }
    PushedStack(done, s, rest, |s.commands|, rollback);
    StepBoundary(done, s);
    ok := true;
  }

  lemma {:induction false} PushedStack(done: seq<Step>, s: Step, rest: seq<Step>, j: nat, rollback: seq<Command>)
    requires NoEmptyStep(done) && j <= |s.commands|
    requires Reversed(rollback) == UndosFor(done + [s] + rest, |Commands(done)|)
    ensures Reversed(if j == 0 then rollback else rollback + [s.undo]) ==
            UndosFor(done + [s] + rest, |Commands(done)| + j)
  {
    UndosForDone(done, s, rest, 0);
    UndosForDone(done, s, rest, j);
    ReversedSnoc(rollback, s.undo);
  }

  lemma {:induction false} NextProxyStep(ps: seq<Profile>, bs: seq<BindingPlan>, i: nat)
    requires |ps| == |bs| && i < |bs|
    ensures ProxySteps(ps[i..], bs[i..]) ==
            (if bs[i].proxyAction.Reuse? then []
             else [Step(ProxyCreateCommands(bs[i], ps[i]), RemoveInterface(bs[i].proxyId))])
            + ProxySteps(ps[i + 1..], bs[i + 1..])
  {
    assert ps[i..][1..] == ps[i + 1..] && bs[i..][1..] == bs[i + 1..];
  }

  lemma {:induction false} NextPolicyStep(ps: seq<Profile>, bs: seq<BindingPlan>, i: nat)
    requires |ps| == |bs| && i < |bs|
    ensures PolicySteps(ps[i..], bs[i..]) ==
            (if bs[i].policyAction.Reuse? then []
             else [Step(PolicyCreateCommands(bs[i], ps[i]), Command.RemovePolicy(bs[i].policyId))])
            + PolicySteps(ps[i + 1..], bs[i + 1..])
  {
    assert ps[i..][1..] == ps[i + 1..] && bs[i..][1..] == bs[i + 1..];
  }

  /** The steps done so far and those to come make up the whole. */
  ghost predicate Splits(whole: seq<Step>, done: seq<Step>, rest: seq<Step>) {
    whole == done + rest && NoEmptyStep(done)
  }

  lemma {:induction false} SplitsNext(whole: seq<Step>, done: seq<Step>, s: Step, rest: seq<Step>, tail: seq<Step>)
    requires Splits(whole, done, [s] + rest + tail) && s.commands != []
    ensures whole == done + [s] + (rest + tail) && Splits(whole, done + [s], rest + tail)
  {
  }

  lemma {:induction false} SplitsEnd(whole: seq<Step>, head: seq<Step>, done: seq<Step>, tail: seq<Step>)
    requires whole == head + tail && Splits(whole, done, [] + tail)
    ensures done == head
  {
    assert done == whole[..|whole| - |tail|] == head;
  }

  function CreatedProxies(bs: seq<BindingPlan>): seq<string> {
    if bs == [] then [] else (if bs[0].proxyAction.Create? then [bs[0].proxyId] else []) + CreatedProxies(bs[1..])
  }

  function CreatedPolicies(bs: seq<BindingPlan>): seq<string> {
    if bs == [] then [] else (if bs[0].policyAction.Create? then [bs[0].policyId] else []) + CreatedPolicies(bs[1..])
  }

  lemma {:induction false} CreatedProxiesNext(bs: seq<BindingPlan>, i: nat)
    requires i < |bs|
    ensures CreatedProxies(bs[..i + 1]) ==
            CreatedProxies(bs[..i]) + (if bs[i].proxyAction.Create? then [bs[i].proxyId] else [])
  {
    if i == 0 {
      assert bs[..1][1..] == [] && bs[..0] == [];
    } else {
      CreatedProxiesNext(bs[1..], i - 1);
      assert bs[..i + 1][1..] == bs[1..][..i] && bs[..i][1..] == bs[1..][..i - 1];
    }
  }

  lemma {:induction false} CreatedPoliciesNext(bs: seq<BindingPlan>, i: nat)
    requires i < |bs|
    ensures CreatedPolicies(bs[..i + 1]) ==
            CreatedPolicies(bs[..i]) + (if bs[i].policyAction.Create? then [bs[i].policyId] else [])
  {
    if i == 0 {
      assert bs[..1][1..] == [] && bs[..0] == [];
    } else {
      CreatedPoliciesNext(bs[1..], i - 1);
      assert bs[..i + 1][1..] == bs[1..][..i] && bs[..i][1..] == bs[1..][..i - 1];
    }
  }

  /** The proxies: each profile without one gets its creation commands. */
  method CreateProxies(
    router: Router, ps: seq<Profile>, bs: seq<BindingPlan>, ghost before: LiveState, ghost log0: seq<Command>,
    ghost tail: seq<Step>)
    returns (ok: bool, rollback: seq<Command>, created: seq<string>, ghost n: nat)
    requires Aligned(ps, bs)
    requires router.Ran(before, []) && router.log == log0
    modifies router
    ensures At(router, before, log0, ProxySteps(ps, bs) + tail, n, rollback)
    ensures ok ==> created == CreatedProxies(bs)
    ensures old(router.clock) <= router.clock && ok == Granted(router.answers, old(router.clock), router.clock)
    ensures ok ==> n == |Commands(ProxySteps(ps, bs))|
  {
    ghost var whole := ProxySteps(ps, bs) + tail;
    ghost var done: seq<Step> := [];
    rollback, created, n := [], [], 0;
    var profiles := ProfilesBySlot(ps);
    for i := 0 to |bs|
      invariant Splits(whole, done, ProxySteps(ps[i..], bs[i..]) + tail)
      invariant created == CreatedProxies(bs[..i])
      invariant n == |Commands(done)| && At(router, before, log0, whole, n, rollback)
      invariant old(router.clock) <= router.clock && Granted(router.answers, old(router.clock), router.clock)
    {
      ProfileAtSlot(ps, i);
      NextProxyStep(ps, bs, i);
      CreatedProxiesNext(bs, i);
      var b, profile := bs[i], profiles[bs[i].slot];
      if b.proxyAction.Create? {
        var s := Step(ProxyCreateCommands(b, profile), RemoveInterface(b.proxyId));
        ghost var rest := ProxySteps(ps[i + 1..], bs[i + 1..]);
        SplitsNext(whole, done, s, rest, tail);
        ok, rollback, n := RunStep(router, s, rollback, before, log0, done, rest + tail);
        if !ok {
          return;
        }
        done := done + [s];
        created := created + [b.proxyId];
      }
    }
    SplitsEnd(whole, ProxySteps(ps, bs), done, tail);
    assert bs[..|bs|] == bs;
    ok := true;
  }

  method CreatePolicies(
    router: Router, ps: seq<Profile>, bs: seq<BindingPlan>, rollback0: seq<Command>, ghost before: LiveState,
    ghost log0: seq<Command>, ghost head: seq<Step>, ghost tail: seq<Step>)
    returns (ok: bool, rollback: seq<Command>, created: seq<string>, ghost n: nat)
    requires Aligned(ps, bs) && NoEmptyStep(head)
    requires At(router, before, log0, head + (PolicySteps(ps, bs) + tail), |Commands(head)|, rollback0)
    modifies router
    ensures At(router, before, log0, head + (PolicySteps(ps, bs) + tail), n, rollback)
    ensures ok ==> created == CreatedPolicies(bs)
    ensures old(router.clock) <= router.clock && ok == Granted(router.answers, old(router.clock), router.clock)
    ensures ok ==> n == |Commands(head + PolicySteps(ps, bs))|
  {
    ghost var whole, done := head + (PolicySteps(ps, bs) + tail), head;
    rollback, created, n := rollback0, [], |Commands(head)|;
    var profiles := ProfilesBySlot(ps);
    for i := 0 to |bs|
      invariant Splits(whole, done, PolicySteps(ps[i..], bs[i..]) + tail)
      invariant created == CreatedPolicies(bs[..i])
      invariant n == |Commands(done)| && At(router, before, log0, whole, n, rollback)
      invariant old(router.clock) <= router.clock && Granted(router.answers, old(router.clock), router.clock)
    {
      ProfileAtSlot(ps, i);
      NextPolicyStep(ps, bs, i);
      CreatedPoliciesNext(bs, i);
      var b, profile := bs[i], profiles[bs[i].slot];
      if b.policyAction.Create? {
        var s := Step(PolicyCreateCommands(b, profile), Command.RemovePolicy(b.policyId));
        ghost var rest := PolicySteps(ps[i + 1..], bs[i + 1..]);
        SplitsNext(whole, done, s, rest, tail);
        ok, rollback, n := RunStep(router, s, rollback, before, log0, done, rest + tail);
        if !ok {
          return;
        }
        done := done + [s];
        created := created + [b.policyId];
      }
    }
    assert whole == head + PolicySteps(ps, bs) + tail;
    SplitsEnd(whole, head + PolicySteps(ps, bs), done, tail);
    assert bs[..|bs|] == bs;
    ok := true;
  }
}
