/** When a live plan comes out and which one, in terms of the router's own records
    (scripts/routerkit_netcraze_live.py:370-464, scripts/routerkit_netcraze_live_compat.py:47-147). */
module LiveDecisions {
  import opened Wrappers
  import opened Text
  import opened PlanModel
  import opened LiveModel
  import opened LivePlanner
  import opened Sets
  import Mac

  // ---- The records ----

  predicate HasProxyName(st: LiveState, p: Profile, id: string) {
    id in st.proxies && st.proxies[id].description == "RouterKit-SOCKS-" + IntText(p.port)
  }

  /** The proxy is what the profile asks for, whatever it is called. */
  predicate IsProxyFor(st: LiveState, p: Profile, id: string) {
    id in st.proxies
    && st.proxies[id] == Proxy(st.proxies[id].description, "socks5", p.host, p.port, p.enabled, false)
  }

  predicate HasPolicyName(st: LiveState, p: Profile, id: string) {
    id in st.policies && st.policies[id].description == "RouterKit-Policy-" + IntText(p.port)
  }

  predicate IsPolicyFor(st: LiveState, proxyId: string, id: string) {
    id in st.policies && st.policies[id] == NativePolicy(st.policies[id].description, [proxyId])
  }

  predicate ProxyCandidate(planner: Planner, st: LiveState, p: Profile, id: string) {
    if planner.ByName? then HasProxyName(st, p, id) else IsProxyFor(st, p, id)
  }

  predicate PolicyCandidate(planner: Planner, st: LiveState, p: Profile, proxyId: string, id: string) {
    if planner.ByName? then HasPolicyName(st, p, id) else IsPolicyFor(st, proxyId, id)
  }

  /** Every id in use is a supported one, and the new id carries the least number none of them carries. */
  ghost predicate IsNextFree(used: set<string>, prefix: string, id: string) {
    && (forall u :: u in used ==> InRange(prefix, u))
    && exists n :: 0 <= n <= 15 && id == NativeId(prefix, n) && NumberFree(used, prefix, n)
                   && forall m :: 0 <= m < n ==> !NumberFree(used, prefix, m)
  }

  // ---- One object ----

  /** The rules for one object, over what owns the name and what has the meaning: the name belongs to at most one, which
      has the meaning; there is at most one candidate, which is reused; without one the next free id is taken. */
  ghost predicate ObjectDecided(
    planner: Planner, owned: set<string>, matching: set<string>, used: set<string>, prefix: string, id: string,
    action: ObjectAction)
  {
    var candidates := if planner.ByName? then owned else matching;
    && (forall x, y :: x in owned && y in owned ==> x == y)
    && (forall x :: x in owned ==> x in matching)
    && (forall x :: x in candidates ==> x == id)
    && if id in candidates then action.Reuse?
       else action.Create? && IsNextFree(used, prefix, id)
  }

  lemma {:induction false} NextFreeIff(used: set<string>, prefix: string, id: string)
    ensures NextFree(used, prefix) == Ok(id) <==> IsNextFree(used, prefix, id)
  {
    if IsNextFree(used, prefix, id) {
      var n :| 0 <= n <= 15 && id == NativeId(prefix, n) && NumberFree(used, prefix, n)
               && forall m :: 0 <= m < n ==> !NumberFree(used, prefix, m);
      FirstFreeIs(used, prefix, n);
    }
  }

  lemma {:induction false} FirstFreeIs(used: set<string>, prefix: string, n: nat)
    requires n <= 15 && NumberFree(used, prefix, n) && forall m :: 0 <= m < n ==> !NumberFree(used, prefix, m)
    ensures FirstFree(used, prefix, 0) == Some(n)
  {
    var first := FirstFree(used, prefix, 0);
  }

  lemma {:induction false} AtMostOneMember(xs: set<string>)
    ensures |xs| <= 1 <==> forall x, y :: x in xs && y in xs ==> x == y
  {
    if |xs| <= 1 {
      forall x, y | x in xs && y in xs ensures x == y {
        AtMostOneId(xs, x, y);
      }
    } else if forall x, y :: x in xs && y in xs ==> x == y {
      SingletonPick(xs, Pick(xs));
    }
  }

  lemma {:induction false} BindObjectIff(
    planner: Planner, owned: set<string>, matching: set<string>, used: set<string>, prefix: string, id: string,
    action: ObjectAction)
    requires forall x :: x in matching + owned ==> x in used
    ensures BindObject(planner, owned, matching, used, prefix) == Ok((id, action))
            <==> ObjectDecided(planner, owned, matching, used, prefix, id, action)
  {
    var candidates := Candidates(planner, owned, matching);
    AtMostOneMember(owned);
    AtMostOneMember(candidates);
    NextFreeIff(used, prefix, id);
    if candidates != {} {
      assert Pick(candidates) in candidates;
    } else {
      NextFreeIff(used, prefix, id);
    }
  }

  // ---- One profile ----

  ghost predicate ProxyDecided(planner: Planner, st: LiveState, p: Profile, used: set<string>, b: BindingPlan) {
    && (forall x, y :: HasProxyName(st, p, x) && HasProxyName(st, p, y) ==> x == y)
    && (forall x :: HasProxyName(st, p, x) ==> IsProxyFor(st, p, x))
    && (forall x :: ProxyCandidate(planner, st, p, x) ==> x == b.proxyId)
    && if ProxyCandidate(planner, st, p, b.proxyId) then b.proxyAction.Reuse?
       else b.proxyAction.Create? && IsNextFree(used, "Proxy", b.proxyId)
  }

  ghost predicate PolicyDecided(planner: Planner, st: LiveState, p: Profile, used: set<string>, b: BindingPlan) {
    && (forall x, y :: HasPolicyName(st, p, x) && HasPolicyName(st, p, y) ==> x == y)
    && (forall x :: HasPolicyName(st, p, x) ==> IsPolicyFor(st, b.proxyId, x))
    && (forall x :: PolicyCandidate(planner, st, p, b.proxyId, x) ==> x == b.policyId)
    && if PolicyCandidate(planner, st, p, b.proxyId, b.policyId) then b.policyAction.Reuse?
       else b.policyAction.Create? && IsNextFree(used, "Policy", b.policyId)
  }

  lemma {:induction false} ProxyIff(planner: Planner, st: LiveState, p: Profile, used: set<string>, b: BindingPlan)
    requires st.proxies.Keys <= used
    ensures ProxyDecided(planner, st, p, used, b) <==>
            BindObject(planner, OwnedProxies(st, p), MatchingProxies(st, p), used, PROXY)
            == Ok((b.proxyId, b.proxyAction))
  {
    var owned, matching := OwnedProxies(st, p), MatchingProxies(st, p);
    var candidates := Candidates(planner, owned, matching);
    forall x
      ensures x in owned <==> HasProxyName(st, p, x)
      ensures x in matching <==> IsProxyFor(st, p, x)
      ensures x in candidates <==> ProxyCandidate(planner, st, p, x)
    {
    }
    BindObjectIff(planner, owned, matching, used, PROXY, b.proxyId, b.proxyAction);
    assert forall x, y :: (x in owned && y in owned) == (HasProxyName(st, p, x) && HasProxyName(st, p, y));
  }

  lemma {:induction false} PolicyIff(planner: Planner, st: LiveState, p: Profile, used: set<string>, b: BindingPlan)
    requires st.policies.Keys <= used
    ensures PolicyDecided(planner, st, p, used, b) <==>
            BindObject(planner, OwnedPolicies(st, p), MatchingPolicies(st, b.proxyId), used, POLICY)
            == Ok((b.policyId, b.policyAction))
  {
    var owned, matching := OwnedPolicies(st, p), MatchingPolicies(st, b.proxyId);
    var candidates := Candidates(planner, owned, matching);
    forall x
      ensures x in owned <==> HasPolicyName(st, p, x)
      ensures x in matching <==> IsPolicyFor(st, b.proxyId, x)
      ensures x in candidates <==> PolicyCandidate(planner, st, p, b.proxyId, x)
    {
    }
    BindObjectIff(planner, owned, matching, used, POLICY, b.policyId, b.policyAction);
    assert forall x, y :: (x in owned && y in owned) == (HasPolicyName(st, p, x) && HasPolicyName(st, p, y));
  }

  ghost predicate ProfileDecided(
    planner: Planner, st: LiveState, p: Profile, usedProxies: set<string>, usedPolicies: set<string>, b: BindingPlan)
  {
    && b.slot == p.slot && b.port == p.port
    && ProxyDecided(planner, st, p, usedProxies, b) && PolicyDecided(planner, st, p, usedPolicies, b)
  }

  lemma {:induction false} ProfileIff(
    planner: Planner, st: LiveState, p: Profile, usedProxies: set<string>, usedPolicies: set<string>, b: BindingPlan)
    requires st.proxies.Keys <= usedProxies && st.policies.Keys <= usedPolicies
    ensures BindProfile(planner, st, p, usedProxies, usedPolicies) == Ok(b)
            <==> ProfileDecided(planner, st, p, usedProxies, usedPolicies, b)
  {
    ProxyIff(planner, st, p, usedProxies, b);
    PolicyIff(planner, st, p, usedPolicies, b);
  }

  // ---- All profiles ----

  ghost predicate DecidedAt(
    planner: Planner, st: LiveState, ps: seq<Profile>, bs: seq<BindingPlan>, usedProxies: set<string>,
    usedPolicies: set<string>, k: nat)
    requires |ps| == |bs| && k < |bs|
  {
    ProfileDecided(planner, st, ps[k], usedProxies + ProxyIds(bs[..k]), usedPolicies + PolicyIds(bs[..k]), bs[k])
  }

  ghost predicate AllDecided(
    planner: Planner, st: LiveState, ps: seq<Profile>, bs: seq<BindingPlan>, usedProxies: set<string>,
    usedPolicies: set<string>)
  {
    |ps| == |bs| && forall k :: 0 <= k < |bs| ==> DecidedAt(planner, st, ps, bs, usedProxies, usedPolicies, k)
  }

  lemma {:induction false} DecidedLater(
    planner: Planner, st: LiveState, ps: seq<Profile>, bs: seq<BindingPlan>, usedProxies: set<string>,
    usedPolicies: set<string>, k: nat)
    requires |ps| == |bs| && 0 < k < |bs|
    ensures DecidedAt(planner, st, ps, bs, usedProxies, usedPolicies, k)
            <==> DecidedAt(planner, st, ps[1..], bs[1..], usedProxies + {bs[0].proxyId},
                           usedPolicies + {bs[0].policyId}, k - 1)
  {
    assert bs[..k][1..] == bs[1..][..k - 1] && bs[..k][0] == bs[0];
    assert usedProxies + ProxyIds(bs[..k]) == usedProxies + {bs[0].proxyId} + ProxyIds(bs[1..][..k - 1]);
    assert usedPolicies + PolicyIds(bs[..k]) == usedPolicies + {bs[0].policyId} + PolicyIds(bs[1..][..k - 1]);
  }

  lemma {:induction false} DecidedFirst(
    planner: Planner, st: LiveState, ps: seq<Profile>, bs: seq<BindingPlan>, usedProxies: set<string>,
    usedPolicies: set<string>)
    requires |ps| == |bs| && bs != []
    ensures DecidedAt(planner, st, ps, bs, usedProxies, usedPolicies, 0)
            <==> ProfileDecided(planner, st, ps[0], usedProxies, usedPolicies, bs[0])
  {
    assert bs[..0] == [];
    assert usedProxies + {} == usedProxies && usedPolicies + {} == usedPolicies;
  }

  lemma {:induction false} AllDecidedCons(
    planner: Planner, st: LiveState, ps: seq<Profile>, bs: seq<BindingPlan>, usedProxies: set<string>,
    usedPolicies: set<string>)
    requires |ps| == |bs| && bs != []
    ensures AllDecided(planner, st, ps, bs, usedProxies, usedPolicies) <==>
            && ProfileDecided(planner, st, ps[0], usedProxies, usedPolicies, bs[0])
            && AllDecided(planner, st, ps[1..], bs[1..], usedProxies + {bs[0].proxyId},
                          usedPolicies + {bs[0].policyId})
  {
    var laterProxies, laterPolicies := usedProxies + {bs[0].proxyId}, usedPolicies + {bs[0].policyId};
    DecidedFirst(planner, st, ps, bs, usedProxies, usedPolicies);
    forall k | 0 < k < |bs|
      ensures DecidedAt(planner, st, ps, bs, usedProxies, usedPolicies, k)
              <==> DecidedAt(planner, st, ps[1..], bs[1..], laterProxies, laterPolicies, k - 1)
    {
      DecidedLater(planner, st, ps, bs, usedProxies, usedPolicies, k);
    }
    if AllDecided(planner, st, ps, bs, usedProxies, usedPolicies) {
      forall j | 0 <= j < |bs[1..]| ensures DecidedAt(planner, st, ps[1..], bs[1..], laterProxies, laterPolicies, j) {
        assert DecidedAt(planner, st, ps, bs, usedProxies, usedPolicies, j + 1);
      }
    }
  }

  lemma {:induction false} BindAllIff(
    planner: Planner, st: LiveState, ps: seq<Profile>, usedProxies: set<string>, usedPolicies: set<string>,
    bs: seq<BindingPlan>)
    requires st.proxies.Keys <= usedProxies && st.policies.Keys <= usedPolicies
    ensures BindAll(planner, st, ps, usedProxies, usedPolicies) == Ok(bs)
            <==> AllDecided(planner, st, ps, bs, usedProxies, usedPolicies)
    decreases |ps|
  {
    if ps != [] && bs != [] {
      var laterProxies, laterPolicies := usedProxies + {bs[0].proxyId}, usedPolicies + {bs[0].policyId};
      ProfileIff(planner, st, ps[0], usedProxies, usedPolicies, bs[0]);
      BindAllIff(planner, st, ps[1..], laterProxies, laterPolicies, bs[1..]);
      BindAllCons(planner, st, ps, usedProxies, usedPolicies, bs);
      if |ps| == |bs| {
        AllDecidedCons(planner, st, ps, bs, usedProxies, usedPolicies);
      }
    }
  }

  lemma {:induction false} BindAllCons(
    planner: Planner, st: LiveState, ps: seq<Profile>, usedProxies: set<string>, usedPolicies: set<string>,
    bs: seq<BindingPlan>)
    requires ps != [] && bs != []
    ensures BindAll(planner, st, ps, usedProxies, usedPolicies) == Ok(bs) <==>
            && BindProfile(planner, st, ps[0], usedProxies, usedPolicies) == Ok(bs[0])
            && BindAll(planner, st, ps[1..], usedProxies + {bs[0].proxyId}, usedPolicies + {bs[0].policyId})
               == Ok(bs[1..])
  {
    assert bs == [bs[0]] + bs[1..];
  }

  // ---- The whole plan ----

  /** The policy of the first binding for a slot. */
  ghost predicate IsTarget(bs: seq<BindingPlan>, slot: int, policyId: string) {
    exists k :: 0 <= k < |bs| && bs[k].slot == slot && policyId == bs[k].policyId
                && forall j :: 0 <= j < k ==> bs[j].slot != slot
  }

  lemma {:induction false} TargetIff(bs: seq<BindingPlan>, slot: int, policyId: string)
    ensures TargetPolicy(bs, slot) == Some(policyId) <==> IsTarget(bs, slot, policyId)
  {
    if bs != [] {
      TargetIff(bs[1..], slot, policyId);
      if bs[0].slot == slot {
        assert bs[0].policyId == policyId ==> IsTarget(bs, slot, policyId);
      } else {
        LaterTarget(bs, slot, policyId);
      }
    }
  }

  lemma {:induction false} LaterTarget(bs: seq<BindingPlan>, slot: int, policyId: string)
    requires bs != [] && bs[0].slot != slot
    ensures IsTarget(bs, slot, policyId) <==> IsTarget(bs[1..], slot, policyId)
  {
    if IsTarget(bs[1..], slot, policyId) {
      var k :| 0 <= k < |bs[1..]| && bs[1..][k].slot == slot && policyId == bs[1..][k].policyId
               && forall j :: 0 <= j < k ==> bs[1..][j].slot != slot;
      forall j | 0 <= j < k + 1 ensures bs[j].slot != slot {
        assert j > 0 ==> bs[j] == bs[1..][j - 1];
      }
      assert bs[k + 1].slot == slot;
    }
    if IsTarget(bs, slot, policyId) {
      var k :| 0 <= k < |bs| && bs[k].slot == slot && policyId == bs[k].policyId
               && forall j :: 0 <= j < k ==> bs[j].slot != slot;
      forall j | 0 <= j < k - 1 ensures bs[1..][j].slot != slot {
        assert bs[1..][j] == bs[j + 1];
      }
      assert bs[1..][k - 1].slot == slot;
    }
  }

  /** The device is left where it is, assigned, or moved; moving takes authority. */
  ghost predicate DeviceDecided(
    st: LiveState, bs: seq<BindingPlan>, mac: string, slot: int, allowMove: bool, action: AssignmentAction)
  {
    exists target :: IsTarget(bs, slot, target) &&
      match action
      case NoAssignment => false
      case KeepAssignment => mac in st.assignments && st.assignments[mac] == target
      case AssignNew => mac !in st.assignments
      case MoveAssignment => allowMove && mac in st.assignments && st.assignments[mac] != target
  }

  /** The request names a usable device and a slot of the manifest, or neither, and the plan is the one the records
      call for. */
  ghost predicate Decided(
    planner: Planner, ps: seq<Profile>, st: LiveState, mac: Option<string>, slot: Option<int>, allowMove: bool,
    plan: LivePlan)
  {
    && AllDecided(planner, st, ps, plan.bindings, st.proxies.Keys, st.policies.Keys)
    && plan.selectedSlot == slot && plan.devicePresent == mac.Some?
    && if mac.None? then slot.None? && plan.assignment.NoAssignment?
       else
         && slot.Some? && Mac.NormalizeMac(mac.value).Some? && (exists p :: p in ps && p.slot == slot.value)
         && DeviceDecided(st, plan.bindings, Mac.NormalizeMac(mac.value).value, slot.value, allowMove, plan.assignment)
  }

  lemma {:induction false} SlotsOfDecided(
    planner: Planner, st: LiveState, ps: seq<Profile>, bs: seq<BindingPlan>, slot: int)
    requires AllDecided(planner, st, ps, bs, st.proxies.Keys, st.policies.Keys) && HasSlot(ps, slot)
    ensures TargetPolicy(bs, slot).Some?
  {
    var p :| p in ps && p.slot == slot;
    var k :| 0 <= k < |ps| && ps[k] == p;
    assert DecidedAt(planner, st, ps, bs, st.proxies.Keys, st.policies.Keys, k);
    SlotFound(bs, slot, k);
  }

  lemma {:induction false} SlotFound(bs: seq<BindingPlan>, slot: int, k: nat)
    requires k < |bs| && bs[k].slot == slot
    ensures TargetPolicy(bs, slot).Some?
  {
    if k > 0 {
      SlotFound(bs[1..], slot, k - 1);
    }
  }

  lemma {:induction false} MoveIff(
    st: LiveState, bs: seq<BindingPlan>, mac: string, slot: int, allowMove: bool, action: AssignmentAction)
    requires TargetPolicy(bs, slot).Some?
    ensures ChooseMove(CurrentPolicy(st, mac), TargetPolicy(bs, slot).GetOr(""), allowMove) == Ok(action)
            <==> DeviceDecided(st, bs, mac, slot, allowMove, action)
  {
    var target := TargetPolicy(bs, slot).value;
    forall x ensures IsTarget(bs, slot, x) <==> x == target {
      TargetIff(bs, slot, x);
    }
    assert IsTarget(bs, slot, target);
  }

  /** A plan without a device. */
  lemma {:induction false} PlainPlanIff(
    planner: Planner, ps: seq<Profile>, st: LiveState, slot: Option<int>, allowMove: bool, plan: LivePlan)
    ensures LivePlanFor(planner, ps, st, None, slot, allowMove) == Ok(plan) <==>
            && slot.None? && BindAll(planner, st, ps, st.proxies.Keys, st.policies.Keys) == Ok(plan.bindings)
            && plan == LivePlan(plan.bindings, false, slot, NoAssignment)
  {
  }

  lemma {:induction false} DevicePlanIff(
    planner: Planner, ps: seq<Profile>, st: LiveState, mac: string, slot: int, allowMove: bool, plan: LivePlan)
    ensures LivePlanFor(planner, ps, st, Some(mac), Some(slot), allowMove) == Ok(plan) <==>
            && Mac.NormalizeMac(mac).Some? && HasSlot(ps, slot)
            && BindAll(planner, st, ps, st.proxies.Keys, st.policies.Keys) == Ok(plan.bindings)
            && plan == LivePlan(plan.bindings, true, Some(slot), plan.assignment)
            && ChooseMove(CurrentPolicy(st, Mac.NormalizeMac(mac).value),
                          TargetPolicy(plan.bindings, slot).GetOr(""), allowMove) == Ok(plan.assignment)
  {
  }

  lemma {:induction false} DecidedDeviceIff(
    planner: Planner, ps: seq<Profile>, st: LiveState, mac: string, slot: int, allowMove: bool, plan: LivePlan)
    requires Mac.NormalizeMac(mac).Some? && HasSlot(ps, slot)
    ensures LivePlanFor(planner, ps, st, Some(mac), Some(slot), allowMove) == Ok(plan) <==>
            && AllDecided(planner, st, ps, plan.bindings, st.proxies.Keys, st.policies.Keys)
            && plan == LivePlan(plan.bindings, true, Some(slot), plan.assignment)
            && DeviceDecided(st, plan.bindings, Mac.NormalizeMac(mac).value, slot, allowMove, plan.assignment)
  {
    DevicePlanIff(planner, ps, st, mac, slot, allowMove, plan);
    BindAllIff(planner, st, ps, st.proxies.Keys, st.policies.Keys, plan.bindings);
    if AllDecided(planner, st, ps, plan.bindings, st.proxies.Keys, st.policies.Keys) {
      SlotsOfDecided(planner, st, ps, plan.bindings, slot);
      MoveIff(st, plan.bindings, Mac.NormalizeMac(mac).value, slot, allowMove, plan.assignment);
    }
  }

  /** A plan comes out exactly when some plan follows the rules, and it is that one; in particular a device is moved
      only with authority, and nothing else is a reason to refuse. */
  lemma {:induction false} LivePlanIff(
    planner: Planner, ps: seq<Profile>, st: LiveState, mac: Option<string>, slot: Option<int>, allowMove: bool,
    plan: LivePlan)
    ensures LivePlanFor(planner, ps, st, mac, slot, allowMove) == Ok(plan)
            <==> Decided(planner, ps, st, mac, slot, allowMove, plan)
  {
    if mac.None? {
      PlainPlanIff(planner, ps, st, slot, allowMove, plan);
      BindAllIff(planner, st, ps, st.proxies.Keys, st.policies.Keys, plan.bindings);
    } else if slot.Some? && Mac.NormalizeMac(mac.value).Some? && HasSlot(ps, slot.value) {
      DecidedDeviceIff(planner, ps, st, mac.value, slot.value, allowMove, plan);
    }
  }

  lemma {:induction false} LivePlanRefusedIff(
    planner: Planner, ps: seq<Profile>, st: LiveState, mac: Option<string>, slot: Option<int>, allowMove: bool)
    ensures LivePlanFor(planner, ps, st, mac, slot, allowMove).Err?
            <==> forall plan :: !Decided(planner, ps, st, mac, slot, allowMove, plan)
  {
    var r := LivePlanFor(planner, ps, st, mac, slot, allowMove);
    if r.Ok? {
      LivePlanIff(planner, ps, st, mac, slot, allowMove, r.value);
    }
    forall plan | r.Err? ensures !Decided(planner, ps, st, mac, slot, allowMove, plan) {
      LivePlanIff(planner, ps, st, mac, slot, allowMove, plan);
    }
  }
}
