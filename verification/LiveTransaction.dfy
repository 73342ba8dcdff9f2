/** The expected post-state of a live plan, and the commands that reach it and undo it
    (scripts/routerkit_netcraze_external.py:106-220). */
module LiveTransaction {
  import opened Wrappers
  import opened PlanModel
  import opened LiveModel
  import opened LivePlanner

  // ---- The expected post-state ----

  /** The native proxy a created binding is expected to leave behind. */
  function ExpectedProxy(p: Profile): Proxy {
    Proxy(ConnectionName(p).text, SOCKS5, p.host, p.port, p.enabled, false)
  }

  function ExpectedPolicy(b: BindingPlan, p: Profile): NativePolicy {
    NativePolicy(PolicyName(p).text, [b.proxyId])
  }

  /** The proxies once every created binding has its object; an occupied slot is refused. */
  function WithProxies(m: map<string, Proxy>, ps: seq<Profile>, bs: seq<BindingPlan>)
    : Result<map<string, Proxy>, LiveError>
    requires |ps| == |bs|
    decreases |bs|
  {
    if bs == [] then Ok(m)
    else if bs[0].proxyAction.Reuse? then WithProxies(m, ps[1..], bs[1..])
    else if bs[0].proxyId in m then Err(Refused)
    else WithProxies(m[bs[0].proxyId := ExpectedProxy(ps[0])], ps[1..], bs[1..])
  }

  function WithPolicies(m: map<string, NativePolicy>, ps: seq<Profile>, bs: seq<BindingPlan>)
    : Result<map<string, NativePolicy>, LiveError>
    requires |ps| == |bs|
    decreases |bs|
  {
    if bs == [] then Ok(m)
    else if bs[0].policyAction.Reuse? then WithPolicies(m, ps[1..], bs[1..])
    else if bs[0].policyId in m then Err(Refused)
    else WithPolicies(m[bs[0].policyId := ExpectedPolicy(bs[0], ps[0])], ps[1..], bs[1..])
  }

  /** The device assignment of a plan, with what it replaces. */
  datatype AssignmentRecord = AssignmentRecord(
    action: AssignmentAction, mac: Option<string>, slot: Option<int>, target: Option<string>, previous: Option<string>)

  const NO_ASSIGNMENT := AssignmentRecord(NoAssignment, None, None, None, None)

  function AssignmentPayload(plan: LivePlan, st: LiveState, mac: Option<string>): AssignmentRecord {
    if mac.None? || plan.selectedSlot.None? then NO_ASSIGNMENT
    else
      AssignmentRecord(plan.assignment, mac, plan.selectedSlot, TargetPolicy(plan.bindings, plan.selectedSlot.value),
                       CurrentPolicy(st, mac.value))
  }

  predicate Writes(a: AssignmentRecord) {
    (a.action.AssignNew? || a.action.MoveAssignment?) && a.mac.Some? && a.target.Some?
  }

  function WithAssignment(m: map<string, string>, a: AssignmentRecord): map<string, string> {
    if Writes(a) then m[a.mac.value := a.target.value] else m
  }

  function ExpectedPostState(ps: seq<Profile>, plan: LivePlan, st: LiveState, mac: Option<string>)
    : Result<LiveState, LiveError>
    requires |ps| == |plan.bindings|
  {
    var proxies := WithProxies(st.proxies, ps, plan.bindings);
    var policies := WithPolicies(st.policies, ps, plan.bindings);
    if proxies.Err? || policies.Err? then Err(Refused)
    else
      var assignments := WithAssignment(st.assignments, AssignmentPayload(plan, st, mac));
      Ok(LiveState(proxies.value, policies.value, assignments, st.guard))
  }

  // ---- Steps: a few commands with the one command that takes them back ----

  datatype Step = Step(commands: seq<Command>, undo: Command)

  function ProxySteps(ps: seq<Profile>, bs: seq<BindingPlan>): seq<Step>
    requires |ps| == |bs|
  {
    if bs == [] then []
    else
      var rest := ProxySteps(ps[1..], bs[1..]);
      if bs[0].proxyAction.Reuse? then rest
      else [Step(ProxyCreateCommands(bs[0], ps[0]), RemoveInterface(bs[0].proxyId))] + rest
  }

  function PolicySteps(ps: seq<Profile>, bs: seq<BindingPlan>): seq<Step>
    requires |ps| == |bs|
  {
    if bs == [] then []
    else
      var rest := PolicySteps(ps[1..], bs[1..]);
      if bs[0].policyAction.Reuse? then rest
      else [Step(PolicyCreateCommands(bs[0], ps[0]), Command.RemovePolicy(bs[0].policyId))] + rest
  }

  function UndoAssignment(a: AssignmentRecord): Command
    requires Writes(a)
  {
    if a.previous.None? then UnassignHost(a.mac.value) else AssignHost(a.mac.value, a.previous.value)
  }

  function AssignmentSteps(a: AssignmentRecord): seq<Step> {
    if Writes(a) then [Step([AssignHost(a.mac.value, a.target.value)], UndoAssignment(a))] else []
  }

  function Steps(ps: seq<Profile>, bs: seq<BindingPlan>, a: AssignmentRecord): seq<Step>
    requires |ps| == |bs|
  {
    ProxySteps(ps, bs) + PolicySteps(ps, bs) + AssignmentSteps(a)
  }

  function Commands(steps: seq<Step>): seq<Command> {
    if steps == [] then [] else steps[0].commands + Commands(steps[1..])
  }

  /** The undo commands, last step first. */
  function Undos(steps: seq<Step>): seq<Command> {
    if steps == [] then [] else Undos(steps[1..]) + [steps[0].undo]
  }

  lemma {:induction false} CommandsAppend(a: seq<Step>, b: seq<Step>)
    ensures Commands(a + b) == Commands(a) + Commands(b)
    ensures Undos(a + b) == Undos(b) + Undos(a)
  {
    if a == [] {
      assert a + b == b;
    } else {
      assert (a + b)[1..] == a[1..] + b;
      CommandsAppend(a[1..], b);
    }
  }

  // ---- Undoing a run ----

  /** Whichever non-empty part of the step ran, its undo brings back the state. */
  ghost predicate Reversible(st: LiveState, s: Step) {
    && s.commands != []
    && (forall j {:trigger s.commands[..j]} :: 1 <= j <= |s.commands| ==>
        Exec(ExecAll(st, s.commands[..j]), s.undo) == st)
  }

  ghost predicate AllReversible(st: LiveState, steps: seq<Step>)
    decreases |steps|
  {
    steps == [] || (Reversible(st, steps[0]) && AllReversible(ExecAll(st, steps[0].commands), steps[1..]))
  }

  lemma {:induction false} UndoneSteps(st: LiveState, steps: seq<Step>)
    requires AllReversible(st, steps)
    ensures ExecAll(ExecAll(st, Commands(steps)), Undos(steps)) == st
    decreases |steps|
  {
    if steps != [] {
      var s, rest := steps[0], steps[1..];
      var mid := ExecAll(st, s.commands);
      UndoneSteps(mid, rest);
      ExecAppended(st, s.commands, Commands(rest));
      ExecAppended(ExecAll(mid, Commands(rest)), Undos(rest), [s.undo]);
      assert s.commands[..|s.commands|] == s.commands;
      assert ExecAll(mid, [s.undo]) == Exec(mid, s.undo);
    }
  }

  lemma {:induction false} AllReversibleAppend(st: LiveState, a: seq<Step>, b: seq<Step>)
    requires AllReversible(st, a) && AllReversible(ExecAll(st, Commands(a)), b)
    ensures AllReversible(st, a + b)
    decreases |a|
  {
    if a == [] {
      assert a + b == b;
    } else {
      assert (a + b)[1..] == a[1..] + b;
      ExecAppended(st, a[0].commands, Commands(a[1..]));
      AllReversibleAppend(ExecAll(st, a[0].commands), a[1..], b);
    }
  }

  // ---- What the created objects' steps do ----

  /** The configuration reached after the first j commands of a proxy's creation. */
  function PartialProxy(p: Profile, j: nat): Proxy
    requires 1 <= j <= 5
  {
    var named := BLANK_PROXY.(description := ConnectionName(p).text);
    if j <= 2 then named
    else if j == 3 then named.(protocol := SOCKS5)
    else if j == 4 then named.(protocol := SOCKS5, host := p.host, port := p.port)
    else named.(protocol := SOCKS5, host := p.host, port := p.port, enabled := true)
  }

  lemma {:induction false} ExecSplit(st: LiveState, cs: seq<Command>, j: nat)
    requires 1 <= j <= |cs|
    ensures ExecAll(st, cs[..j]) == Exec(ExecAll(st, cs[..j - 1]), cs[j - 1])
  {
    assert cs[..j] == cs[..j - 1] + [cs[j - 1]];
    ExecAppended(st, cs[..j - 1], [cs[j - 1]]);
    var mid := ExecAll(st, cs[..j - 1]);
    assert ExecAll(mid, [cs[j - 1]]) == Exec(mid, cs[j - 1]);
  }

  lemma {:induction false} ProxyCommandsBuild(st: LiveState, b: BindingPlan, p: Profile, j: nat)
    requires b.proxyId !in st.proxies && 1 <= j <= 5
    ensures ExecAll(st, ProxyCreateCommands(b, p)[..j]) == st.(proxies := st.proxies[b.proxyId := PartialProxy(p, j)])
  {
    var cs := ProxyCreateCommands(b, p);
    ExecSplit(st, cs, j);
    if j == 1 {
      assert cs[..0] == [];
    } else {
      ProxyCommandsBuild(st, b, p, j - 1);
      var id := b.proxyId;
      var x, y := PartialProxy(p, j - 1), PartialProxy(p, j);
      assert st.proxies[id := x][id := y] == st.proxies[id := y];
    }
  }

  lemma {:induction false} PolicyCommandsBuild(st: LiveState, b: BindingPlan, p: Profile, j: nat)
    requires b.policyId !in st.policies && 1 <= j <= 2
    ensures ExecAll(st, PolicyCreateCommands(b, p)[..j]) ==
            st.(policies := st.policies[b.policyId :=
                  NativePolicy(PolicyName(p).text, if j == 1 then [] else [b.proxyId])])
  {
    var cs := PolicyCreateCommands(b, p);
    ExecSplit(st, cs, j);
    if j == 1 {
      assert cs[..0] == [];
    } else {
      PolicyCommandsBuild(st, b, p, 1);
      assert [] + [b.proxyId] == [b.proxyId];
      var x, y := NativePolicy(PolicyName(p).text, []), ExpectedPolicy(b, p);
      assert st.policies[b.policyId := x][b.policyId := y] == st.policies[b.policyId := y];
    }
  }

  lemma {:induction false} ProxyStepReversible(st: LiveState, b: BindingPlan, p: Profile)
    requires b.proxyId !in st.proxies
    ensures Reversible(st, Step(ProxyCreateCommands(b, p), RemoveInterface(b.proxyId)))
  {
    var cs := ProxyCreateCommands(b, p);
    forall j | 1 <= j <= |cs| ensures Exec(ExecAll(st, cs[..j]), RemoveInterface(b.proxyId)) == st {
      ProxyCommandsBuild(st, b, p, j);
      assert st.proxies[b.proxyId := PartialProxy(p, j)] - {b.proxyId} == st.proxies;
    }
  }

  lemma {:induction false} PolicyStepReversible(st: LiveState, b: BindingPlan, p: Profile)
    requires b.policyId !in st.policies
    ensures Reversible(st, Step(PolicyCreateCommands(b, p), Command.RemovePolicy(b.policyId)))
  {
    var cs := PolicyCreateCommands(b, p);
    forall j | 1 <= j <= |cs| ensures Exec(ExecAll(st, cs[..j]), Command.RemovePolicy(b.policyId)) == st {
      PolicyCommandsBuild(st, b, p, j);
      var q := NativePolicy(PolicyName(p).text, if j == 1 then [] else [b.proxyId]);
      assert st.policies[b.policyId := q] - {b.policyId} == st.policies;
    }
  }

  lemma {:induction false} AssignmentStepReversible(st: LiveState, a: AssignmentRecord)
    requires Writes(a) && CurrentPolicy(st, a.mac.value) == a.previous
    ensures Reversible(st, AssignmentSteps(a)[0])
    ensures ExecAll(st, AssignmentSteps(a)[0].commands) == st.(assignments := WithAssignment(st.assignments, a))
  {
    var mac, target := a.mac.value, a.target.value;
    var cs := [AssignHost(mac, target)];
    var after := st.assignments[mac := target];
    ExecSplit(st, cs, 1);
    assert cs[..0] == [] && cs[..1] == cs;
    if a.previous.None? {
      assert after - {mac} == st.assignments;
    } else {
      assert after[mac := a.previous.value] == st.assignments;
    }
  }

  /** The profiles as the rendered commands realise them: always switched on. */
  function Booted(ps: seq<Profile>): (r: seq<Profile>)
    ensures |r| == |ps|
    ensures forall k :: 0 <= k < |ps| ==> r[k] == ps[k].(enabled := true)
  {
    if ps == [] then [] else [ps[0].(enabled := true)] + Booted(ps[1..])
  }

  lemma {:induction false} ProxyStepsRun(st: LiveState, ps: seq<Profile>, bs: seq<BindingPlan>)
    requires |ps| == |bs| && WithProxies(st.proxies, Booted(ps), bs).Ok?
    ensures AllReversible(st, ProxySteps(ps, bs))
    ensures ExecAll(st, Commands(ProxySteps(ps, bs))) == st.(proxies := WithProxies(st.proxies, Booted(ps), bs).value)
    decreases |bs|
  {
    if bs != [] {
      var b, p := bs[0], ps[0];
      assert Booted(ps)[1..] == Booted(ps[1..]);
      if b.proxyAction.Reuse? {
        ProxyStepsRun(st, ps[1..], bs[1..]);
      } else {
        var cs := ProxyCreateCommands(b, p);
        var next := st.(proxies := st.proxies[b.proxyId := ExpectedProxy(Booted(ps)[0])]);
        ProxyCommandsBuild(st, b, p, 5);
        assert cs[..5] == cs;
        ProxyStepReversible(st, b, p);
        ProxyStepsRun(next, ps[1..], bs[1..]);
        ExecAppended(st, cs, Commands(ProxySteps(ps[1..], bs[1..])));
      }
    }
  }

  lemma {:induction false} PolicyStepsRun(st: LiveState, ps: seq<Profile>, bs: seq<BindingPlan>)
    requires |ps| == |bs| && WithPolicies(st.policies, ps, bs).Ok?
    ensures AllReversible(st, PolicySteps(ps, bs))
    ensures ExecAll(st, Commands(PolicySteps(ps, bs))) == st.(policies := WithPolicies(st.policies, ps, bs).value)
    decreases |bs|
  {
    if bs != [] {
      var b, p := bs[0], ps[0];
      if b.policyAction.Reuse? {
        PolicyStepsRun(st, ps[1..], bs[1..]);
      } else {
        var cs := PolicyCreateCommands(b, p);
        var next := st.(policies := st.policies[b.policyId := ExpectedPolicy(b, p)]);
        PolicyCommandsBuild(st, b, p, 2);
        assert cs[..2] == cs;
        PolicyStepReversible(st, b, p);
        PolicyStepsRun(next, ps[1..], bs[1..]);
        ExecAppended(st, cs, Commands(PolicySteps(ps[1..], bs[1..])));
      }
    }
  }

  /** What the rendered commands produce, whatever the profiles' enabled flags. */
  lemma {:induction false} CommandsRun(ps: seq<Profile>, bs: seq<BindingPlan>, st: LiveState, a: AssignmentRecord)
    requires |ps| == |bs| && WithProxies(st.proxies, Booted(ps), bs).Ok? && WithPolicies(st.policies, ps, bs).Ok?
    requires Writes(a) ==> CurrentPolicy(st, a.mac.value) == a.previous
    ensures AllReversible(st, Steps(ps, bs, a))
    ensures ExecAll(st, Commands(Steps(ps, bs, a))) ==
            LiveState(WithProxies(st.proxies, Booted(ps), bs).value, WithPolicies(st.policies, ps, bs).value,
                      WithAssignment(st.assignments, a), st.guard)
  {
    var x, y, z := ProxySteps(ps, bs), PolicySteps(ps, bs), AssignmentSteps(a);
    ProxyStepsRun(st, ps, bs);
    var st1 := ExecAll(st, Commands(x));
    PolicyStepsRun(st1, ps, bs);
    var st2 := ExecAll(st1, Commands(y));
    if Writes(a) {
      AssignmentStepReversible(st2, a);
      assert z[1..] == [];
      assert Commands(z) == z[0].commands + [];
    }
    CommandsAppend(x, y);
    CommandsAppend(x + y, z);
    ExecAppended(st, Commands(x), Commands(y));
    ExecAppended(st, Commands(x + y), Commands(z));
    AllReversibleAppend(st, x, y);
    AllReversibleAppend(st, x + y, z);
  }
}
