/** Verifying an applied plan, and replanning on what it left behind
    (scripts/routerkit_netcraze_live.py:502-526, scripts/routerkit_netcraze_live_compat.py:150-194). */
module LiveVerification {
  import opened Wrappers
  import opened PlanModel
  import opened LiveModel
  import opened LivePlanner
  import opened LiveTransaction
  import opened LiveEffects
  import opened Sets
  import Mac

  // ---- The post-apply check ----

  /** By name, every object must carry its name; by semantics, only those the plan created. */
  predicate ProxyVerified(planner: Planner, p: Profile, b: BindingPlan, proxies: map<string, Proxy>) {
    && b.proxyId in proxies && ProxySemantic(proxies[b.proxyId], p)
    && (planner.ByName? || b.proxyAction.Create? ==> ProxyOwned(proxies[b.proxyId], p))
  }

  predicate PolicyVerified(planner: Planner, p: Profile, b: BindingPlan, policies: map<string, NativePolicy>) {
    && b.policyId in policies && PolicySemantic(policies[b.policyId], b.proxyId)
    && (planner.ByName? || b.policyAction.Create? ==> PolicyOwned(policies[b.policyId], p))
  }

  predicate BindingsVerified(planner: Planner, ps: seq<Profile>, bs: seq<BindingPlan>, st: LiveState)
    requires |ps| == |bs|
  {
    forall k :: 0 <= k < |bs| ==>
      ProxyVerified(planner, ps[k], bs[k], st.proxies) && PolicyVerified(planner, ps[k], bs[k], st.policies)
  }

  predicate AssignmentVerified(plan: LivePlan, st: LiveState, device: Option<string>) {
    device.Some? && plan.selectedSlot.Some? ==>
      CurrentPolicy(st, device.value) == TargetPolicy(plan.bindings, plan.selectedSlot.value)
  }

  predicate Applied(planner: Planner, ps: seq<Profile>, plan: LivePlan, st: LiveState, device: Option<string>)
    requires |ps| == |plan.bindings|
  {
    BindingsVerified(planner, ps, plan.bindings, st) && AssignmentVerified(plan, st, device)
  }

  lemma {:induction false} ExtendedProxyVerifies(
    planner: Planner, st: LiveState, ps: seq<Profile>, qs: seq<Profile>, bs: seq<BindingPlan>, k: nat,
    post: map<string, Proxy>)
    requires |ps| == |qs| == |bs| && k < |bs| && Fits(planner, st, ps[k], bs[k])
    requires ConnectionName(qs[k]) == ConnectionName(ps[k]) && qs[k].host == ps[k].host && qs[k].port == ps[k].port
    requires ProxiesExtended(st.proxies, qs, bs, post)
    ensures ProxyVerified(planner, ps[k], bs[k], post) <==> bs[k].proxyAction.Reuse? || qs[k].enabled == ps[k].enabled
  {
  }

  lemma {:induction false} ExtendedPolicyVerifies(
    planner: Planner, st: LiveState, ps: seq<Profile>, bs: seq<BindingPlan>, k: nat, post: map<string, NativePolicy>)
    requires |ps| == |bs| && k < |bs| && Fits(planner, st, ps[k], bs[k])
    requires PoliciesExtended(st.policies, ps, bs, post)
    ensures PolicyVerified(planner, ps[k], bs[k], post)
  {
  }

  lemma {:induction false} AssignedAsPlanned(
    ps: seq<Profile>, plan: LivePlan, st: LiveState, device: Option<string>, post: LiveState)
    requires AssignmentFits(ps, plan, st, device)
    requires post.assignments == WithAssignment(st.assignments, AssignmentPayload(plan, st, device))
    ensures AssignmentVerified(plan, post, device)
  {
  }

  /** The same objects and assignments; the default-policy guard is looked at separately. */
  predicate SameObjects(a: LiveState, b: LiveState) {
    a.proxies == b.proxies && a.policies == b.policies && a.assignments == b.assignments
  }

  /** The state holds exactly the objects and assignments the plan is expected to leave. */
  predicate AsExpected(ps: seq<Profile>, plan: LivePlan, st: LiveState, device: Option<string>, post: LiveState)
    requires |ps| == |plan.bindings|
  {
    && ExpectedPostState(ps, plan, st, device).Ok?
    && SameObjects(post, ExpectedPostState(ps, plan, st, device).value)
  }

  /** Verification passes on the expected post-state. */
  lemma {:induction false} ExpectedStateIsApplied(
    planner: Planner, ps: seq<Profile>, plan: LivePlan, st: LiveState, device: Option<string>, post: LiveState)
    requires PlanFits(planner, ps, plan, st, device) && AsExpected(ps, plan, st, device, post)
    ensures Applied(planner, ps, plan, post, device)
  {
    var bs := plan.bindings;
    ProxiesAreExtended(st.proxies, ps, bs);
    PoliciesAreExtended(st.policies, ps, bs);
    forall k | 0 <= k < |bs|
      ensures ProxyVerified(planner, ps[k], bs[k], post.proxies) && PolicyVerified(planner, ps[k], bs[k], post.policies)
    {
      ExtendedProxyVerifies(planner, st, ps, ps, bs, k, post.proxies);
      ExtendedPolicyVerifies(planner, st, ps, bs, k, post.policies);
    }
    AssignedAsPlanned(ps, plan, st, device, post);
  }

  /** After the rendered commands a binding verifies unless its proxy was created for a disabled profile. */
  ghost predicate VerifiesIfEnabled(planner: Planner, p: Profile, b: BindingPlan, post: LiveState) {
    && (ProxyVerified(planner, p, b, post.proxies) <==> b.proxyAction.Reuse? || p.enabled)
    && PolicyVerified(planner, p, b, post.policies)
  }

  lemma {:induction false} AllVerifyIfEnabled(planner: Planner, ps: seq<Profile>, bs: seq<BindingPlan>, post: LiveState)
    requires |ps| == |bs|
    requires forall k :: 0 <= k < |bs| ==> VerifiesIfEnabled(planner, ps[k], bs[k], post)
    ensures BindingsVerified(planner, ps, bs, post) <==> CreatedAreEnabled(ps, bs)
  {
    if !CreatedAreEnabled(ps, bs) {
      var k :| 0 <= k < |bs| && bs[k].proxyAction.Create? && !ps[k].enabled;
      assert VerifiesIfEnabled(planner, ps[k], bs[k], post);
    } else {
      forall k | 0 <= k < |bs|
        ensures ProxyVerified(planner, ps[k], bs[k], post.proxies)
                && PolicyVerified(planner, ps[k], bs[k], post.policies)
      {
        assert VerifiesIfEnabled(planner, ps[k], bs[k], post);
      }
    }
  }

  lemma {:induction false} BootedBindingVerifies(
    planner: Planner, st: LiveState, ps: seq<Profile>, bs: seq<BindingPlan>, post: LiveState, k: nat)
    requires |ps| == |bs| && k < |bs| && Fits(planner, st, ps[k], bs[k])
    requires ProxiesExtended(st.proxies, Booted(ps), bs, post.proxies)
    requires PoliciesExtended(st.policies, ps, bs, post.policies)
    ensures VerifiesIfEnabled(planner, ps[k], bs[k], post)
  {
    ExtendedProxyVerifies(planner, st, ps, Booted(ps), bs, k, post.proxies);
    ExtendedPolicyVerifies(planner, st, ps, bs, k, post.policies);
  }

  lemma {:induction false} BootedBindingsVerify(
    planner: Planner, st: LiveState, ps: seq<Profile>, bs: seq<BindingPlan>, post: LiveState)
    requires Bound(planner, st, ps, bs)
    requires ProxiesExtended(st.proxies, Booted(ps), bs, post.proxies)
    requires PoliciesExtended(st.policies, ps, bs, post.policies)
    ensures BindingsVerified(planner, ps, bs, post) <==> CreatedAreEnabled(ps, bs)
  {
    forall k | 0 <= k < |bs| ensures VerifiesIfEnabled(planner, ps[k], bs[k], post) {
      BootedBindingVerifies(planner, st, ps, bs, post, k);
    }
    AllVerifyIfEnabled(planner, ps, bs, post);
  }

  /** Verification passes on what the commands reach exactly when that is the expected post-state, that is, when every
      created profile is enabled. */
  lemma {:induction false} CommandsAreAppliedIffEnabled(
    planner: Planner, ps: seq<Profile>, plan: LivePlan, st: LiveState, device: Option<string>)
    requires PlanFits(planner, ps, plan, st, device)
    ensures Applied(planner, ps, plan, ExecAll(st, Commands(PlanSteps(ps, plan, st, device))), device) <==>
            CreatedAreEnabled(ps, plan.bindings)
  {
    var a := AssignmentPayload(plan, st, device);
    FittingPlanHasPostState(planner, ps, plan, st, device);
    CommandsRun(ps, plan.bindings, st, a);
    var post := ExecAll(st, Commands(PlanSteps(ps, plan, st, device)));
    ProxiesAreExtended(st.proxies, Booted(ps), plan.bindings);
    PoliciesAreExtended(st.policies, ps, plan.bindings);
    BootedBindingsVerify(planner, st, ps, plan.bindings, post);
    AssignedAsPlanned(ps, plan, st, device, post);
  }

  // ---- Replanning ----

  /** The same objects, all of them reused. */
  function Reused(bs: seq<BindingPlan>): (r: seq<BindingPlan>)
    ensures |r| == |bs|
  {
    if bs == [] then [] else [bs[0].(proxyAction := Reuse, policyAction := Reuse)] + Reused(bs[1..])
  }

  lemma {:induction false} ReusedTarget(bs: seq<BindingPlan>, slot: int)
    ensures TargetPolicy(Reused(bs), slot) == TargetPolicy(bs, slot)
  {
    if bs != [] {
      ReusedTarget(bs[1..], slot);
    }
  }

  lemma {:induction false} PortsPinProfiles(ps: seq<Profile>, k: nat, l: nat)
    requires DistinctPorts(ps) && k < |ps| && l < |ps| && ps[k].port == ps[l].port
    ensures k == l
  {
  }

  /** In the post-state only its own proxy carries a profile's name. */
  lemma {:induction false} OwnerIsBound(
    planner: Planner, st: LiveState, ps: seq<Profile>, bs: seq<BindingPlan>, k: nat, post: map<string, Proxy>,
    id: string)
    requires |ps| == |bs| && k < |bs| && DistinctPorts(ps) && Fits(planner, st, ps[k], bs[k])
    requires ProxiesExtended(st.proxies, ps, bs, post)
    requires id in post && ProxyOwned(post[id], ps[k])
    ensures id == bs[k].proxyId
  {
    if id !in st.proxies {
      var l :| 0 <= l < |bs| && bs[l].proxyAction.Create? && bs[l].proxyId == id;
      OwnedNamesSeparatePorts(ps[k], ps[l]);
      PortsPinProfiles(ps, k, l);
    }
  }

  lemma {:induction false} MeaningIsBound(
    st: LiveState, ps: seq<Profile>, bs: seq<BindingPlan>, k: nat, post: map<string, Proxy>, id: string)
    requires |ps| == |bs| && k < |bs| && DistinctPorts(ps) && Fits(BySemantics, st, ps[k], bs[k])
    requires ProxiesExtended(st.proxies, ps, bs, post)
    requires id in post && ProxySemantic(post[id], ps[k])
    ensures id == bs[k].proxyId
  {
    if id !in st.proxies {
      var l :| 0 <= l < |bs| && bs[l].proxyAction.Create? && bs[l].proxyId == id;
      PortsPinProfiles(ps, k, l);
    }
  }

  lemma {:induction false} PolicyOwnerIsBound(
    planner: Planner, st: LiveState, ps: seq<Profile>, bs: seq<BindingPlan>, k: nat, post: map<string, NativePolicy>,
    id: string)
    requires |ps| == |bs| && k < |bs| && DistinctPorts(ps) && Fits(planner, st, ps[k], bs[k])
    requires PoliciesExtended(st.policies, ps, bs, post)
    requires id in post && PolicyOwned(post[id], ps[k])
    ensures id == bs[k].policyId
  {
    if id !in st.policies {
      var l :| 0 <= l < |bs| && bs[l].policyAction.Create? && bs[l].policyId == id;
      OwnedNamesSeparatePorts(ps[k], ps[l]);
      PortsPinProfiles(ps, k, l);
    }
  }

  lemma {:induction false} PolicyMeaningIsBound(
    st: LiveState, ps: seq<Profile>, bs: seq<BindingPlan>, k: nat, post: map<string, NativePolicy>, id: string)
    requires |ps| == |bs| && k < |bs| && Fits(BySemantics, st, ps[k], bs[k])
    requires forall i, j :: 0 <= i < j < |bs| ==> bs[i].proxyId != bs[j].proxyId
    requires PoliciesExtended(st.policies, ps, bs, post)
    requires id in post && PolicySemantic(post[id], bs[k].proxyId)
    ensures id == bs[k].policyId
  {
    if id !in st.policies {
      var l :| 0 <= l < |bs| && bs[l].policyAction.Create? && bs[l].policyId == id;
      assert post[id].interfaces == [bs[l].proxyId];
    }
  }

  /** A candidate set that holds exactly one id is reused. */
  lemma {:induction false} SoleCandidateIsReused(
    planner: Planner, owned: set<string>, matching: set<string>, used: set<string>, prefix: string, id: string)
    requires id in matching && (planner.ByName? ==> id in owned)
    requires forall x :: x in owned ==> x == id
    requires planner.BySemantics? ==> forall x :: x in matching ==> x == id
    ensures BindObject(planner, owned, matching, used, prefix) == Ok((id, Reuse))
  {
    SubsetSize(owned, {id});
    var candidates := Candidates(planner, owned, matching);
    assert candidates == {id};
    SingletonPick(candidates, id);
  }

  lemma {:induction false} ReboundProxy(
    planner: Planner, st: LiveState, ps: seq<Profile>, bs: seq<BindingPlan>, k: nat, post: LiveState, used: set<string>)
    requires |ps| == |bs| && k < |bs| && DistinctPorts(ps) && Fits(planner, st, ps[k], bs[k])
    requires ProxiesExtended(st.proxies, ps, bs, post.proxies)
    ensures BindObject(planner, OwnedProxies(post, ps[k]), MatchingProxies(post, ps[k]), used, PROXY) ==
            Ok((bs[k].proxyId, Reuse))
  {
    var owned, matching := OwnedProxies(post, ps[k]), MatchingProxies(post, ps[k]);
    ExtendedProxyVerifies(planner, st, ps, ps, bs, k, post.proxies);
    forall x | x in owned ensures x == bs[k].proxyId {
      OwnerIsBound(planner, st, ps, bs, k, post.proxies, x);
    }
    if planner.BySemantics? {
      forall x | x in matching ensures x == bs[k].proxyId {
        MeaningIsBound(st, ps, bs, k, post.proxies, x);
      }
    }
    SoleCandidateIsReused(planner, owned, matching, used, PROXY, bs[k].proxyId);
  }

  lemma {:induction false} ReboundPolicy(
    planner: Planner, st: LiveState, ps: seq<Profile>, bs: seq<BindingPlan>, k: nat, post: LiveState, used: set<string>)
    requires |ps| == |bs| && k < |bs| && DistinctPorts(ps) && Fits(planner, st, ps[k], bs[k])
    requires forall i, j :: 0 <= i < j < |bs| ==> bs[i].proxyId != bs[j].proxyId
    requires PoliciesExtended(st.policies, ps, bs, post.policies)
    ensures BindObject(planner, OwnedPolicies(post, ps[k]), MatchingPolicies(post, bs[k].proxyId), used, POLICY) ==
            Ok((bs[k].policyId, Reuse))
  {
    var owned, matching := OwnedPolicies(post, ps[k]), MatchingPolicies(post, bs[k].proxyId);
    ExtendedPolicyVerifies(planner, st, ps, bs, k, post.policies);
    forall x | x in owned ensures x == bs[k].policyId {
      PolicyOwnerIsBound(planner, st, ps, bs, k, post.policies, x);
    }
    if planner.BySemantics? {
      forall x | x in matching ensures x == bs[k].policyId {
        PolicyMeaningIsBound(st, ps, bs, k, post.policies, x);
      }
    }
    SoleCandidateIsReused(planner, owned, matching, used, POLICY, bs[k].policyId);
  }

  /** Binding profile k again finds its own objects, whatever else is reserved. */
  ghost predicate Rebinds(planner: Planner, post: LiveState, p: Profile, b: BindingPlan) {
    forall usedProxies, usedPolicies :: BindProfile(planner, post, p, usedProxies, usedPolicies) ==
      Ok(b.(proxyAction := Reuse, policyAction := Reuse))
  }

  lemma {:induction false} ProfileRebinds(
    planner: Planner, st: LiveState, ps: seq<Profile>, bs: seq<BindingPlan>, k: nat, post: LiveState)
    requires |ps| == |bs| && k < |bs| && DistinctPorts(ps) && Fits(planner, st, ps[k], bs[k])
    requires forall i, j :: 0 <= i < j < |bs| ==> bs[i].proxyId != bs[j].proxyId
    requires ProxiesExtended(st.proxies, ps, bs, post.proxies) && PoliciesExtended(st.policies, ps, bs, post.policies)
    ensures Rebinds(planner, post, ps[k], bs[k])
  {
    forall usedProxies, usedPolicies
      ensures BindProfile(planner, post, ps[k], usedProxies, usedPolicies) ==
              Ok(bs[k].(proxyAction := Reuse, policyAction := Reuse))
    {
      ReboundProxy(planner, st, ps, bs, k, post, usedProxies);
      ReboundPolicy(planner, st, ps, bs, k, post, usedPolicies);
    }
  }

  lemma {:induction false} AllRebind(
    planner: Planner, post: LiveState, ps: seq<Profile>, bs: seq<BindingPlan>, usedProxies: set<string>,
    usedPolicies: set<string>)
    requires |ps| == |bs| && (forall k :: 0 <= k < |bs| ==> Rebinds(planner, post, ps[k], bs[k]))
    ensures BindAll(planner, post, ps, usedProxies, usedPolicies) == Ok(Reused(bs))
    decreases |bs|
  {
    if bs != [] {
      assert Rebinds(planner, post, ps[0], bs[0]);
      forall k | 0 <= k < |bs[1..]| ensures Rebinds(planner, post, ps[1..][k], bs[1..][k]) {
        assert Rebinds(planner, post, ps[k + 1], bs[k + 1]);
      }
      AllRebind(planner, post, ps[1..], bs[1..], usedProxies + {bs[0].proxyId}, usedPolicies + {bs[0].policyId});
    }
  }

  /** The plan made again on its own expected post-state. */
  function Replanned(plan: LivePlan): LivePlan {
    LivePlan(Reused(plan.bindings), plan.devicePresent, plan.selectedSlot,
             if plan.devicePresent then KeepAssignment else NoAssignment)
  }

  lemma {:induction false} PostStateRebinds(
    planner: Planner, st: LiveState, ps: seq<Profile>, bs: seq<BindingPlan>, post: LiveState)
    requires Bound(planner, st, ps, bs)
    requires ProxiesExtended(st.proxies, ps, bs, post.proxies) && PoliciesExtended(st.policies, ps, bs, post.policies)
    ensures BindAll(planner, post, ps, post.proxies.Keys, post.policies.Keys) == Ok(Reused(bs))
  {
    forall k | 0 <= k < |bs| ensures Rebinds(planner, post, ps[k], bs[k]) {
      ProfileRebinds(planner, st, ps, bs, k, post);
    }
    AllRebind(planner, post, ps, bs, post.proxies.Keys, post.policies.Keys);
  }

  lemma {:induction false} KeptAssignment(
    planner: Planner, ps: seq<Profile>, plan: LivePlan, st: LiveState, device: Option<string>, post: LiveState)
    requires AssignmentFits(ps, plan, st, device) && AssignmentVerified(plan, post, device)
    requires device.Some? ==> Mac.NormalizeMac(device.value) == device
    requires BindAll(planner, post, ps, post.proxies.Keys, post.policies.Keys) == Ok(Reused(plan.bindings))
    ensures LivePlanFor(planner, ps, post, device, plan.selectedSlot, false) == Ok(Replanned(plan))
  {
    if plan.selectedSlot.Some? {
      ReusedTarget(plan.bindings, plan.selectedSlot.value);
    }
  }

  /** Replanning on the expected post-state, without authority to move, reuses exactly the plan's objects and keeps
      exactly its assignment. */
  lemma {:induction false} ReplanningReuses(
    planner: Planner, ps: seq<Profile>, plan: LivePlan, st: LiveState, device: Option<string>, post: LiveState)
    requires PlanFits(planner, ps, plan, st, device) && AsExpected(ps, plan, st, device, post)
    requires device.Some? ==> Mac.NormalizeMac(device.value) == device
    ensures LivePlanFor(planner, ps, post, device, plan.selectedSlot, false) == Ok(Replanned(plan))
  {
    ExpectedStateIsApplied(planner, ps, plan, st, device, post);
    ProxiesAreExtended(st.proxies, ps, plan.bindings);
    PoliciesAreExtended(st.policies, ps, plan.bindings);
    PostStateRebinds(planner, st, ps, plan.bindings, post);
    KeptAssignment(planner, ps, plan, st, device, post);
  }
}
