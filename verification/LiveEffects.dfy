/** What a live plan leaves behind: its commands, its expected state, its verification and its replanning agree
    (scripts/routerkit_netcraze_external.py:106-220, 537-562; scripts/routerkit_netcraze_live_compat.py:150-194). */
module LiveEffects {
  import opened Wrappers
  import opened PlanModel
  import opened LiveModel
  import opened LivePlanner
  import opened LiveTransaction
  import Mac

  // ---- Plans that fit a state ----

  /** The device of a request, normalised as the planner does it. */
  function DeviceOf(mac: Option<string>): Option<string> {
    if mac.None? then None else Mac.NormalizeMac(mac.value)
  }

  /** The assignment part of a plan says how the device's present policy relates to the target. */
  predicate AssignmentFits(ps: seq<Profile>, plan: LivePlan, st: LiveState, device: Option<string>) {
    if device.None? || plan.selectedSlot.None? then
      device.None? && plan.selectedSlot.None? && plan.assignment.NoAssignment? && !plan.devicePresent
    else
      var target := TargetPolicy(plan.bindings, plan.selectedSlot.value);
      var current := CurrentPolicy(st, device.value);
      && plan.devicePresent && HasSlot(ps, plan.selectedSlot.value) && target.Some?
      && (match plan.assignment
          case NoAssignment => false
          case KeepAssignment => current == target
          case AssignNew => current.None?
          case MoveAssignment => current.Some? && current != target)
  }

  ghost predicate PlanFits(planner: Planner, ps: seq<Profile>, plan: LivePlan, st: LiveState, device: Option<string>) {
    Bound(planner, st, ps, plan.bindings) && AssignmentFits(ps, plan, st, device)
  }

  lemma {:induction false} TargetIsBound(ps: seq<Profile>, bs: seq<BindingPlan>, slot: int)
    requires |ps| == |bs| && (forall k :: 0 <= k < |ps| ==> bs[k].slot == ps[k].slot)
    ensures HasSlot(ps, slot) <==> TargetPolicy(bs, slot).Some?
    ensures TargetPolicy(bs, slot).Some? ==>
              exists k :: 0 <= k < |bs| && bs[k].slot == slot && TargetPolicy(bs, slot) == Some(bs[k].policyId)
    decreases |bs|
  {
    if bs != [] {
      TargetIsBound(ps[1..], bs[1..], slot);
      assert ps == [ps[0]] + ps[1..];
      if bs[0].slot == slot {
        assert ps[0] in ps;
      } else if TargetPolicy(bs, slot).Some? {
        var k :| 0 <= k < |bs[1..]| && bs[1..][k].slot == slot
                 && TargetPolicy(bs[1..], slot) == Some(bs[1..][k].policyId);
        assert bs[k + 1].slot == slot;
      }
    }
  }

  lemma {:induction false} BoundSlots(planner: Planner, st: LiveState, ps: seq<Profile>, bs: seq<BindingPlan>)
    requires Bound(planner, st, ps, bs)
    ensures |ps| == |bs| && (forall k :: 0 <= k < |ps| ==> bs[k].slot == ps[k].slot)
  {
    forall k | 0 <= k < |ps| ensures bs[k].slot == ps[k].slot {
      assert Fits(planner, st, ps[k], bs[k]);
    }
  }

  /** Every plan of either planner fits the state it was made for. */
  lemma {:induction false} LivePlanFits(
    planner: Planner, ps: seq<Profile>, st: LiveState, mac: Option<string>, slot: Option<int>, allowMove: bool)
    requires DistinctPorts(ps) && LivePlanFor(planner, ps, st, mac, slot, allowMove).Ok?
    ensures PlanFits(planner, ps, LivePlanFor(planner, ps, st, mac, slot, allowMove).value, st, DeviceOf(mac))
    ensures LivePlanFor(planner, ps, st, mac, slot, allowMove).value.selectedSlot == slot
  {
    LivePlanBindsDistinctly(planner, ps, st, mac, slot, allowMove);
    var plan := LivePlanFor(planner, ps, st, mac, slot, allowMove).value;
    BoundSlots(planner, st, ps, plan.bindings);
    if slot.Some? {
      TargetIsBound(ps, plan.bindings, slot.value);
    }
  }

  // ---- What the expected state holds ----

  /** The proxies after creation: the old ones untouched, one new proxy for every created binding, nothing else. */
  ghost predicate ProxiesExtended(
    m: map<string, Proxy>, ps: seq<Profile>, bs: seq<BindingPlan>, post: map<string, Proxy>)
    requires |ps| == |bs|
  {
    && (forall id :: id in m ==> id in post && post[id] == m[id])
    && (forall k :: 0 <= k < |bs| && bs[k].proxyAction.Create? ==>
          bs[k].proxyId !in m && bs[k].proxyId in post && post[bs[k].proxyId] == ExpectedProxy(ps[k]))
    && (forall id :: id in post && id !in m ==>
          exists k :: 0 <= k < |bs| && bs[k].proxyAction.Create? && bs[k].proxyId == id)
  }

  ghost predicate PoliciesExtended(
    m: map<string, NativePolicy>, ps: seq<Profile>, bs: seq<BindingPlan>, post: map<string, NativePolicy>)
    requires |ps| == |bs|
  {
    && (forall id :: id in m ==> id in post && post[id] == m[id])
    && (forall k :: 0 <= k < |bs| && bs[k].policyAction.Create? ==>
          bs[k].policyId !in m && bs[k].policyId in post && post[bs[k].policyId] == ExpectedPolicy(bs[k], ps[k]))
    && (forall id :: id in post && id !in m ==>
          exists k :: 0 <= k < |bs| && bs[k].policyAction.Create? && bs[k].policyId == id)
  }

  lemma {:induction false} ProxiesAreExtended(m: map<string, Proxy>, ps: seq<Profile>, bs: seq<BindingPlan>)
    requires |ps| == |bs| && WithProxies(m, ps, bs).Ok?
    ensures ProxiesExtended(m, ps, bs, WithProxies(m, ps, bs).value)
    decreases |bs|
  {
    if bs != [] {
      var b, post := bs[0], WithProxies(m, ps, bs).value;
      var m1 := if b.proxyAction.Reuse? then m else m[b.proxyId := ExpectedProxy(ps[0])];
      ProxiesAreExtended(m1, ps[1..], bs[1..]);
      forall id | id in post && id !in m
        ensures exists k :: 0 <= k < |bs| && bs[k].proxyAction.Create? && bs[k].proxyId == id
      {
        if id !in m1 {
          var k :| 0 <= k < |bs[1..]| && bs[1..][k].proxyAction.Create? && bs[1..][k].proxyId == id;
          assert bs[k + 1].proxyId == id;
        } else {
          assert bs[0].proxyId == id;
        }
      }
      forall k | 0 <= k < |bs| && bs[k].proxyAction.Create?
        ensures bs[k].proxyId !in m && bs[k].proxyId in post && post[bs[k].proxyId] == ExpectedProxy(ps[k])
      {
        if k > 0 { assert bs[1..][k - 1].proxyAction.Create?; }
      }
    }
  }

  lemma {:induction false} PoliciesAreExtended(m: map<string, NativePolicy>, ps: seq<Profile>, bs: seq<BindingPlan>)
    requires |ps| == |bs| && WithPolicies(m, ps, bs).Ok?
    ensures PoliciesExtended(m, ps, bs, WithPolicies(m, ps, bs).value)
    decreases |bs|
  {
    if bs != [] {
      var b, post := bs[0], WithPolicies(m, ps, bs).value;
      var m1 := if b.policyAction.Reuse? then m else m[b.policyId := ExpectedPolicy(b, ps[0])];
      PoliciesAreExtended(m1, ps[1..], bs[1..]);
      forall id | id in post && id !in m
        ensures exists k :: 0 <= k < |bs| && bs[k].policyAction.Create? && bs[k].policyId == id
      {
        if id !in m1 {
          var k :| 0 <= k < |bs[1..]| && bs[1..][k].policyAction.Create? && bs[1..][k].policyId == id;
          assert bs[k + 1].policyId == id;
        } else {
          assert bs[0].policyId == id;
        }
      }
      forall k | 0 <= k < |bs| && bs[k].policyAction.Create?
        ensures bs[k].policyId !in m && bs[k].policyId in post && post[bs[k].policyId] == ExpectedPolicy(bs[k], ps[k])
      {
        if k > 0 { assert bs[1..][k - 1].policyAction.Create?; }
      }
    }
  }

  /** Created ids are free and differ pairwise. */
  ghost predicate FreshIds(proxies: set<string>, policies: set<string>, bs: seq<BindingPlan>) {
    && (forall k :: 0 <= k < |bs| && bs[k].proxyAction.Create? ==> bs[k].proxyId !in proxies)
    && (forall k :: 0 <= k < |bs| && bs[k].policyAction.Create? ==> bs[k].policyId !in policies)
    && (forall k, l :: 0 <= k < l < |bs| ==> bs[k].proxyId != bs[l].proxyId && bs[k].policyId != bs[l].policyId)
  }

  lemma {:induction false} BoundIdsAreFresh(planner: Planner, st: LiveState, ps: seq<Profile>, bs: seq<BindingPlan>)
    requires Bound(planner, st, ps, bs)
    ensures FreshIds(st.proxies.Keys, st.policies.Keys, bs)
  {
    forall k | 0 <= k < |bs|
      ensures bs[k].proxyAction.Create? ==> bs[k].proxyId !in st.proxies.Keys
      ensures bs[k].policyAction.Create? ==> bs[k].policyId !in st.policies.Keys
    {
      assert Fits(planner, st, ps[k], bs[k]);
    }
  }

  lemma {:induction false} FreshSlotsAreFree(
    m: map<string, Proxy>, q: map<string, NativePolicy>, ps: seq<Profile>, bs: seq<BindingPlan>)
    requires |ps| == |bs| && FreshIds(m.Keys, q.Keys, bs)
    ensures WithProxies(m, ps, bs).Ok? && WithPolicies(q, ps, bs).Ok?
    decreases |bs|
  {
    if bs != [] {
      var b, rest := bs[0], bs[1..];
      var m1 := if b.proxyAction.Reuse? then m else m[b.proxyId := ExpectedProxy(ps[0])];
      var q1 := if b.policyAction.Reuse? then q else q[b.policyId := ExpectedPolicy(b, ps[0])];
      forall k | 0 <= k < |rest|
        ensures rest[k].proxyAction.Create? ==> rest[k].proxyId !in m1.Keys
        ensures rest[k].policyAction.Create? ==> rest[k].policyId !in q1.Keys
      {
        assert rest[k] == bs[k + 1];
      }
      FreshSlotsAreFree(m1, q1, ps[1..], rest);
    }
  }

  /** A fitting plan never selects an occupied slot. */
  lemma {:induction false} FittingPlanHasPostState(
    planner: Planner, ps: seq<Profile>, plan: LivePlan, st: LiveState, device: Option<string>)
    requires PlanFits(planner, ps, plan, st, device)
    ensures ExpectedPostState(ps, plan, st, device).Ok?
    ensures WithProxies(st.proxies, Booted(ps), plan.bindings).Ok?
  {
    BoundIdsAreFresh(planner, st, ps, plan.bindings);
    FreshSlotsAreFree(st.proxies, st.policies, ps, plan.bindings);
    FreshSlotsAreFree(st.proxies, st.policies, Booted(ps), plan.bindings);
  }

  // ---- Commands against expectation ----

  predicate CreatedAreEnabled(ps: seq<Profile>, bs: seq<BindingPlan>)
    requires |ps| == |bs|
  {
    forall k :: 0 <= k < |bs| && bs[k].proxyAction.Create? ==> ps[k].enabled
  }

  lemma {:induction false} BootingEnabledChangesNothing(m: map<string, Proxy>, ps: seq<Profile>, bs: seq<BindingPlan>)
    requires |ps| == |bs| && CreatedAreEnabled(ps, bs)
    ensures WithProxies(m, Booted(ps), bs) == WithProxies(m, ps, bs)
    decreases |bs|
  {
    if bs != [] {
      assert Booted(ps)[1..] == Booted(ps[1..]);
      forall k | 0 <= k < |bs[1..]| && bs[1..][k].proxyAction.Create? ensures ps[1..][k].enabled {
        assert bs[k + 1].proxyAction.Create?;
      }
      if bs[0].proxyAction.Reuse? {
        BootingEnabledChangesNothing(m, ps[1..], bs[1..]);
      } else {
        assert ExpectedProxy(Booted(ps)[0]) == ExpectedProxy(ps[0]);
        BootingEnabledChangesNothing(m[bs[0].proxyId := ExpectedProxy(ps[0])], ps[1..], bs[1..]);
      }
    }
  }

  lemma {:induction false} ExpectedAt(m: map<string, Proxy>, ps: seq<Profile>, bs: seq<BindingPlan>, k: nat)
    requires |ps| == |bs| && WithProxies(m, ps, bs).Ok? && k < |bs| && bs[k].proxyAction.Create?
    ensures bs[k].proxyId !in m && bs[k].proxyId in WithProxies(m, ps, bs).value
    ensures WithProxies(m, ps, bs).value[bs[k].proxyId] == ExpectedProxy(ps[k])
  {
    ProxiesAreExtended(m, ps, bs);
  }

  lemma {:induction false} ExpectedPolicyAt(
    m: map<string, NativePolicy>, ps: seq<Profile>, bs: seq<BindingPlan>, k: nat)
    requires |ps| == |bs| && WithPolicies(m, ps, bs).Ok? && k < |bs| && bs[k].policyAction.Create?
    ensures bs[k].policyId !in m && bs[k].policyId in WithPolicies(m, ps, bs).value
  {
    PoliciesAreExtended(m, ps, bs);
  }

  lemma {:induction false} BootedDiffers(m: map<string, Proxy>, ps: seq<Profile>, bs: seq<BindingPlan>)
    requires |ps| == |bs| && WithProxies(m, Booted(ps), bs).Ok? && WithProxies(m, ps, bs).Ok?
    ensures WithProxies(m, Booted(ps), bs) == WithProxies(m, ps, bs) <==> CreatedAreEnabled(ps, bs)
  {
    if CreatedAreEnabled(ps, bs) {
      BootingEnabledChangesNothing(m, ps, bs);
    } else {
      var k :| 0 <= k < |bs| && bs[k].proxyAction.Create? && !ps[k].enabled;
      ExpectedAt(m, Booted(ps), bs, k);
      ExpectedAt(m, ps, bs, k);
    }
  }

  /** The steps a plan is carried out in. */
  function PlanSteps(ps: seq<Profile>, plan: LivePlan, st: LiveState, device: Option<string>): seq<Step>
    requires |ps| == |plan.bindings|
  {
    Steps(ps, plan.bindings, AssignmentPayload(plan, st, device))
  }

  /** Running the rendered commands reaches exactly the expected post-state if and only if every profile whose proxy
      is created is enabled; running the rollback commands from there restores the initial state in any case. */
  lemma {:induction false} CommandsReachExpected(
    planner: Planner, ps: seq<Profile>, plan: LivePlan, st: LiveState, device: Option<string>)
    requires PlanFits(planner, ps, plan, st, device)
    ensures var steps := PlanSteps(ps, plan, st, device);
            var reached := ExecAll(st, Commands(steps));
            && (Ok(reached) == ExpectedPostState(ps, plan, st, device) <==> CreatedAreEnabled(ps, plan.bindings))
            && ExecAll(reached, Undos(steps)) == st
            && AllReversible(st, steps)
  {
    FittingPlanHasPostState(planner, ps, plan, st, device);
    var a := AssignmentPayload(plan, st, device);
    CommandsRun(ps, plan.bindings, st, a);
    UndoneSteps(st, PlanSteps(ps, plan, st, device));
    BootedDiffers(st.proxies, ps, plan.bindings);
  }

  // ---- Nothing to write ----

  predicate CreatesNothing(bs: seq<BindingPlan>) {
    forall b :: b in bs ==> b.proxyAction.Reuse? && b.policyAction.Reuse?
  }

  lemma {:induction false} NoCreationNoSteps(ps: seq<Profile>, bs: seq<BindingPlan>)
    requires |ps| == |bs|
    ensures Commands(ProxySteps(ps, bs)) == [] && Commands(PolicySteps(ps, bs)) == [] <==> CreatesNothing(bs)
    decreases |bs|
  {
    if bs != [] {
      NoCreationNoSteps(ps[1..], bs[1..]);
      assert bs == [bs[0]] + bs[1..];
    }
  }

  lemma {:induction false} NoCreationNoChange(
    m: map<string, Proxy>, q: map<string, NativePolicy>, ps: seq<Profile>, bs: seq<BindingPlan>)
    requires |ps| == |bs| && CreatesNothing(bs)
    ensures WithProxies(m, ps, bs) == Ok(m) && WithPolicies(q, ps, bs) == Ok(q)
    decreases |bs|
  {
    if bs != [] {
      NoCreationNoChange(m, q, ps[1..], bs[1..]);
    }
  }

  lemma {:induction false} CreationChanges(
    planner: Planner, ps: seq<Profile>, plan: LivePlan, st: LiveState, device: Option<string>)
    requires PlanFits(planner, ps, plan, st, device) && !CreatesNothing(plan.bindings)
    ensures ExpectedPostState(ps, plan, st, device) != Ok(st)
  {
    FittingPlanHasPostState(planner, ps, plan, st, device);
    var bs := plan.bindings;
    var b :| b in bs && !(b.proxyAction.Reuse? && b.policyAction.Reuse?);
    var k :| 0 <= k < |bs| && bs[k] == b;
    if b.proxyAction.Create? {
      ExpectedAt(st.proxies, ps, bs, k);
    } else {
      ExpectedPolicyAt(st.policies, ps, bs, k);
    }
  }

  lemma {:induction false} WritingChanges(ps: seq<Profile>, plan: LivePlan, st: LiveState, device: Option<string>)
    requires AssignmentFits(ps, plan, st, device)
    ensures var a := AssignmentPayload(plan, st, device);
            WithAssignment(st.assignments, a) == st.assignments <==> !Writes(a)
  {
    var a := AssignmentPayload(plan, st, device);
    if Writes(a) {
      var after := WithAssignment(st.assignments, a);
      assert a.mac.value in after && after[a.mac.value] == a.target.value;
    }
  }

  /** Nothing is rendered exactly when the expected post-state is the pre-state. */
  lemma {:induction false} NoCommandsNoChange(
    planner: Planner, ps: seq<Profile>, plan: LivePlan, st: LiveState, device: Option<string>)
    requires PlanFits(planner, ps, plan, st, device)
    ensures Commands(PlanSteps(ps, plan, st, device)) == [] <==> ExpectedPostState(ps, plan, st, device) == Ok(st)
  {
    var a, bs := AssignmentPayload(plan, st, device), plan.bindings;
    NoCreationNoSteps(ps, bs);
    CommandsAppend(ProxySteps(ps, bs), PolicySteps(ps, bs));
    CommandsAppend(ProxySteps(ps, bs) + PolicySteps(ps, bs), AssignmentSteps(a));
    WritingChanges(ps, plan, st, device);
    assert Commands(AssignmentSteps(a)) == [] <==> !Writes(a);
    if CreatesNothing(bs) {
      NoCreationNoChange(st.proxies, st.policies, ps, bs);
    } else {
      CreationChanges(planner, ps, plan, st, device);
    }
  }

  const DISABLED_PROFILE := Profile(1, "primary", "127.0.0.1", 1082, false, SOCKS5, NO_AUTH)
  const EMPTY_ROUTER := LiveState(map[], map[], map[], [])

  lemma {:induction false} EmptyRouterBinds(p: Profile)
    ensures BindAll(BySemantics, EMPTY_ROUTER, [p], {}, {}) ==
            Ok([BindingPlan(p.slot, p.port, NativeId(PROXY, 0), NativeId(POLICY, 0), Create, Create)])
  {
    var st := EMPTY_ROUTER;
    assert OwnedProxies(st, p) == {} && MatchingProxies(st, p) == {};
    assert OwnedPolicies(st, p) == {} && MatchingPolicies(st, NativeId(PROXY, 0)) == {};
    assert NumberFree({}, PROXY, 0) && NumberFree({}, POLICY, 0);
    var b := BindProfile(BySemantics, st, p, {}, {});
    assert b == Ok(BindingPlan(p.slot, p.port, NativeId(PROXY, 0), NativeId(POLICY, 0), Create, Create));
    assert [p][1..] == [] && [b.value] + [] == [b.value];
  }

  /** An instance: on an empty router a disabled profile is planned, but its commands switch the new proxy on, so the
      expected post-state is not reached. */
  lemma {:induction false} DisabledProfileIsNotReached()
    ensures var planned := LivePlanFor(BySemantics, [DISABLED_PROFILE], EMPTY_ROUTER, None, None, false);
            && planned.Ok? && |planned.value.bindings| == 1
            && Ok(ExecAll(EMPTY_ROUTER, Commands(PlanSteps([DISABLED_PROFILE], planned.value, EMPTY_ROUTER, None)))) !=
               ExpectedPostState([DISABLED_PROFILE], planned.value, EMPTY_ROUTER, None)
  {
    var p, st := DISABLED_PROFILE, EMPTY_ROUTER;
    EmptyRouterBinds(p);
    assert st.proxies.Keys == {} && st.policies.Keys == {};
    var planned := LivePlanFor(BySemantics, [p], st, None, None, false);
    assert planned.Ok?;
    assert planned.value.bindings[0].proxyAction.Create? && !p.enabled;
    LivePlanFits(BySemantics, [p], st, None, None, false);
    CommandsReachExpected(BySemantics, [p], planned.value, st, None);
  }
}
