/** The two live planners: by code-owned name, and by semantics
    (scripts/routerkit_netcraze_live.py:385-464, scripts/routerkit_netcraze_live_compat.py:47-147). */
module LivePlanner {
  import opened Wrappers
  import opened PlanModel
  import opened LiveModel
  import opened Sets
  import Mac

  datatype Planner = ByName | BySemantics

  // ---- Binding one profile ----

  ghost function OwnedProxies(st: LiveState, p: Profile): set<string> {
    set id | id in st.proxies && ProxyOwned(st.proxies[id], p)
  }

  ghost function MatchingProxies(st: LiveState, p: Profile): set<string> {
    set id | id in st.proxies && ProxySemantic(st.proxies[id], p)
  }

  ghost function OwnedPolicies(st: LiveState, p: Profile): set<string> {
    set id | id in st.policies && PolicyOwned(st.policies[id], p)
  }

  ghost function MatchingPolicies(st: LiveState, proxyId: string): set<string> {
    set id | id in st.policies && PolicySemantic(st.policies[id], proxyId)
  }

  /** Candidates to reuse: by name, the owned object; by semantics, the object that means the same. */
  ghost function Candidates(planner: Planner, owned: set<string>, matching: set<string>): set<string> {
    if planner.ByName? then owned else matching
  }

  /** Reuse the one candidate, or take the least free id. An owned name must mean the right thing, and a name or a
      meaning that is not unique is refused. */
  ghost function BindObject(
    planner: Planner, owned: set<string>, matching: set<string>, used: set<string>, prefix: string)
    : Result<(string, ObjectAction), LiveError>
  {
    var candidates := Candidates(planner, owned, matching);
    if |owned| > 1 || !(owned <= matching) || |candidates| > 1 then Err(Refused)
    else if candidates != {} then Ok((Pick(candidates), Reuse))
    else
      var free := NextFree(used, prefix);
      if free.Err? then Err(Refused) else Ok((free.value, Create))
  }

  ghost function BindProfile(
    planner: Planner, st: LiveState, p: Profile, usedProxies: set<string>, usedPolicies: set<string>)
    : Result<BindingPlan, LiveError>
  {
    var proxy := BindObject(planner, OwnedProxies(st, p), MatchingProxies(st, p), usedProxies, PROXY);
    if proxy.Err? then Err(Refused)
    else
      var policy := BindObject(
        planner, OwnedPolicies(st, p), MatchingPolicies(st, proxy.value.0), usedPolicies, POLICY);
      if policy.Err? then Err(Refused)
      else Ok(BindingPlan(p.slot, p.port, proxy.value.0, policy.value.0, proxy.value.1, policy.value.1))
  }

  /** All profiles in order, every chosen id reserved for the ones that follow. */
  ghost function BindAll(
    planner: Planner, st: LiveState, ps: seq<Profile>, usedProxies: set<string>, usedPolicies: set<string>)
    : (r: Result<seq<BindingPlan>, LiveError>)
    ensures r.Ok? ==> |r.value| == |ps|
    ensures r.Err? ==> r == Err(Refused)
  {
    if ps == [] then Ok([])
    else
      var b := BindProfile(planner, st, ps[0], usedProxies, usedPolicies);
      if b.Err? then Err(Refused)
      else
        var rest := BindAll(planner, st, ps[1..], usedProxies + {b.value.proxyId}, usedPolicies + {b.value.policyId});
        if rest.Err? then Err(Refused) else Ok([b.value] + rest.value)
  }

  // ---- The assignment ----

  predicate HasSlot(ps: seq<Profile>, slot: int) {
    exists p :: p in ps && p.slot == slot
  }

  function TargetPolicy(bs: seq<BindingPlan>, slot: int): Option<string> {
    if bs == [] then None else if bs[0].slot == slot then Some(bs[0].policyId) else TargetPolicy(bs[1..], slot)
  }

  function CurrentPolicy(st: LiveState, mac: string): Option<string> {
    if mac in st.assignments then Some(st.assignments[mac]) else None
  }

  function ChooseMove(current: Option<string>, target: string, allowMove: bool): Result<AssignmentAction, LiveError> {
    if current == Some(target) then Ok(KeepAssignment)
    else if current.None? then Ok(AssignNew)
    else if allowMove then Ok(MoveAssignment)
    else Err(Refused)
  }

  /** The device part of the request: nothing, or a normalised MAC with a slot of the manifest. */
  function DeviceRequest(ps: seq<Profile>, mac: Option<string>, slot: Option<int>)
    : Result<Option<(string, int)>, LiveError>
  {
    if mac.None? != slot.None? then Err(Refused)
    else if mac.None? then Ok(None)
    else
      var normalized := Mac.NormalizeMac(mac.value);
      if normalized.None? || !HasSlot(ps, slot.value) then Err(Refused) else Ok(Some((normalized.value, slot.value)))
  }

  ghost function LivePlanFor(
    planner: Planner, ps: seq<Profile>, st: LiveState, mac: Option<string>, slot: Option<int>, allowMove: bool)
    : Result<LivePlan, LiveError>
  {
    var request := DeviceRequest(ps, mac, slot);
    if request.Err? then Err(Refused)
    else
      var bindings := BindAll(planner, st, ps, st.proxies.Keys, st.policies.Keys);
      if bindings.Err? then Err(Refused)
      else if request.value.None? then Ok(LivePlan(bindings.value, false, slot, NoAssignment))
      else
        var (device, target) := request.value.value;
        var policy := TargetPolicy(bindings.value, target);
        var action := ChooseMove(CurrentPolicy(st, device), policy.GetOr(""), allowMove);
        if action.Err? then Err(Refused) else Ok(LivePlan(bindings.value, true, slot, action.value))
  }

  // ---- What a binding guarantees ----

  /** The bound proxy is, or once created will be, the profile's only match, and no other proxy owns its name. */
  ghost predicate ProxyFits(st: LiveState, p: Profile, b: BindingPlan) {
    && (b.proxyAction.Create? <==> b.proxyId !in st.proxies)
    && (b.proxyAction.Reuse? ==> b.proxyId in st.proxies && ProxySemantic(st.proxies[b.proxyId], p))
    && (b.proxyAction.Create? ==> InRange(PROXY, b.proxyId))
    && (forall id :: id in st.proxies && ProxyOwned(st.proxies[id], p) ==> id == b.proxyId)
  }

  ghost predicate PolicyFits(st: LiveState, p: Profile, b: BindingPlan) {
    && (b.policyAction.Create? <==> b.policyId !in st.policies)
    && (b.policyAction.Reuse? ==> b.policyId in st.policies && PolicySemantic(st.policies[b.policyId], b.proxyId))
    && (b.policyAction.Create? ==> InRange(POLICY, b.policyId))
    && (forall id :: id in st.policies && PolicyOwned(st.policies[id], p) ==> id == b.policyId)
  }

  /** Beyond that, the semantic planner's objects are the only ones with their meaning. */
  ghost predicate UniqueMeaning(st: LiveState, p: Profile, b: BindingPlan) {
    && (forall id :: id in st.proxies && ProxySemantic(st.proxies[id], p) ==> id == b.proxyId)
    && (forall id :: id in st.policies && PolicySemantic(st.policies[id], b.proxyId) ==> id == b.policyId)
  }

  ghost predicate Fits(planner: Planner, st: LiveState, p: Profile, b: BindingPlan) {
    && b.slot == p.slot && b.port == p.port && ProxyFits(st, p, b) && PolicyFits(st, p, b)
    && (planner.BySemantics? ==> UniqueMeaning(st, p, b))
    && (planner.ByName? ==>
          && (b.proxyAction.Reuse? ==> ProxyOwned(st.proxies[b.proxyId], p))
          && (b.policyAction.Reuse? ==> PolicyOwned(st.policies[b.policyId], p)))
  }

  lemma {:induction false} AtMostOneId(xs: set<string>, x: string, y: string)
    requires |xs| <= 1 && x in xs && y in xs
    ensures x == y
  {
    if x != y {
      TwoMembers(xs, x, y);
    }
  }

  lemma {:induction false} BoundObject(
    planner: Planner, owned: set<string>, matching: set<string>, used: set<string>, prefix: string)
    requires BindObject(planner, owned, matching, used, prefix).Ok?
    ensures var (id, action) := BindObject(planner, owned, matching, used, prefix).value;
            && (action.Reuse? ==> id in matching && (planner.ByName? ==> id in owned))
            && (action.Create? ==> id !in used && InRange(prefix, id) && owned == {})
            && (forall x :: x in owned ==> x == id)
            && (planner.BySemantics? ==>
                  (forall x :: x in matching ==> x == id) && (action.Create? ==> matching == {}))
  {
    var candidates := Candidates(planner, owned, matching);
    var (id, action) := BindObject(planner, owned, matching, used, prefix).value;
    if action.Create? {
      NextFreeIsLeast(used, prefix);
    } else {
      forall x | x in candidates ensures x == id {
        AtMostOneId(candidates, x, id);
      }
    }
  }

  lemma {:induction false} BoundProfileFits(
    planner: Planner, st: LiveState, p: Profile, usedProxies: set<string>, usedPolicies: set<string>)
    requires BindProfile(planner, st, p, usedProxies, usedPolicies).Ok?
    requires st.proxies.Keys <= usedProxies && st.policies.Keys <= usedPolicies
    ensures var b := BindProfile(planner, st, p, usedProxies, usedPolicies).value;
            && Fits(planner, st, p, b)
            && (b.proxyAction.Create? ==> b.proxyId !in usedProxies)
            && (b.policyAction.Create? ==> b.policyId !in usedPolicies)
  {
    var b := BindProfile(planner, st, p, usedProxies, usedPolicies).value;
    var owned, matching := OwnedProxies(st, p), MatchingProxies(st, p);
    BoundObject(planner, owned, matching, usedProxies, PROXY);
    forall id | id in st.proxies
      ensures ProxyOwned(st.proxies[id], p) ==> id in owned
      ensures ProxySemantic(st.proxies[id], p) ==> id in matching
    {
    }
    var ownedPolicies, matchingPolicies := OwnedPolicies(st, p), MatchingPolicies(st, b.proxyId);
    BoundObject(planner, ownedPolicies, matchingPolicies, usedPolicies, POLICY);
    forall id | id in st.policies
      ensures PolicyOwned(st.policies[id], p) ==> id in ownedPolicies
      ensures PolicySemantic(st.policies[id], b.proxyId) ==> id in matchingPolicies
    {
    }
  }

  /** Every profile's binding fits, and different profiles are bound to different proxies and policies. */
  ghost predicate Bound(planner: Planner, st: LiveState, ps: seq<Profile>, bs: seq<BindingPlan>) {
    && |bs| == |ps| && DistinctPorts(ps)
    && (forall k :: 0 <= k < |ps| ==> Fits(planner, st, ps[k], bs[k]))
    && (forall k, l :: 0 <= k < l < |ps| ==> bs[k].proxyId != bs[l].proxyId && bs[k].policyId != bs[l].policyId)
  }

  lemma {:induction false} LaterBindingDiffers(
    planner: Planner, st: LiveState, p: Profile, b: BindingPlan, q: Profile, c: BindingPlan, usedProxies: set<string>,
    usedPolicies: set<string>)
    requires Fits(planner, st, p, b) && Fits(planner, st, q, c) && p.port != q.port
    requires st.proxies.Keys + {b.proxyId} <= usedProxies && st.policies.Keys + {b.policyId} <= usedPolicies
    requires c.proxyAction.Create? ==> c.proxyId !in usedProxies
    requires c.policyAction.Create? ==> c.policyId !in usedPolicies
    ensures b.proxyId != c.proxyId && b.policyId != c.policyId
  {
  }

  lemma {:induction false} BoundCons(
    planner: Planner, st: LiveState, ps: seq<Profile>, b: BindingPlan, rest: seq<BindingPlan>)
    requires ps != [] && DistinctPorts(ps) && Fits(planner, st, ps[0], b) && Bound(planner, st, ps[1..], rest)
    requires forall l :: 0 <= l < |rest| ==> b.proxyId != rest[l].proxyId && b.policyId != rest[l].policyId
    ensures Bound(planner, st, ps, [b] + rest)
  {
    var bs := [b] + rest;
    forall k | 0 <= k < |ps| ensures Fits(planner, st, ps[k], bs[k]) {
      if k > 0 { assert Fits(planner, st, ps[1..][k - 1], rest[k - 1]); }
    }
  }

  /** Objects created by a list of bindings avoid the ids in use before it. */
  ghost predicate Avoids(bs: seq<BindingPlan>, usedProxies: set<string>, usedPolicies: set<string>) {
    && (forall k :: 0 <= k < |bs| && bs[k].proxyAction.Create? ==> bs[k].proxyId !in usedProxies)
    && (forall k :: 0 <= k < |bs| && bs[k].policyAction.Create? ==> bs[k].policyId !in usedPolicies)
  }

  lemma {:induction false} LaterBindingsDiffer(
    planner: Planner, st: LiveState, ps: seq<Profile>, b: BindingPlan, rest: seq<BindingPlan>,
    usedProxies: set<string>, usedPolicies: set<string>)
    requires ps != [] && DistinctPorts(ps) && Fits(planner, st, ps[0], b) && Bound(planner, st, ps[1..], rest)
    requires st.proxies.Keys + {b.proxyId} <= usedProxies && st.policies.Keys + {b.policyId} <= usedPolicies
    requires Avoids(rest, usedProxies, usedPolicies)
    ensures forall l :: 0 <= l < |rest| ==> b.proxyId != rest[l].proxyId && b.policyId != rest[l].policyId
  {
    forall l | 0 <= l < |rest| ensures b.proxyId != rest[l].proxyId && b.policyId != rest[l].policyId {
      assert Fits(planner, st, ps[1..][l], rest[l]);
      LaterBindingDiffers(planner, st, ps[0], b, ps[l + 1], rest[l], usedProxies, usedPolicies);
    }
  }

  lemma {:induction false} BoundAllFits(
    planner: Planner, st: LiveState, ps: seq<Profile>, usedProxies: set<string>, usedPolicies: set<string>)
    requires BindAll(planner, st, ps, usedProxies, usedPolicies).Ok? && DistinctPorts(ps)
    requires st.proxies.Keys <= usedProxies && st.policies.Keys <= usedPolicies
    ensures Bound(planner, st, ps, BindAll(planner, st, ps, usedProxies, usedPolicies).value)
    ensures Avoids(BindAll(planner, st, ps, usedProxies, usedPolicies).value, usedProxies, usedPolicies)
  {
    if ps != [] {
      var b := BindProfile(planner, st, ps[0], usedProxies, usedPolicies).value;
      var laterProxies, laterPolicies := usedProxies + {b.proxyId}, usedPolicies + {b.policyId};
      BoundProfileFits(planner, st, ps[0], usedProxies, usedPolicies);
      BoundAllFits(planner, st, ps[1..], laterProxies, laterPolicies);
      var rest := BindAll(planner, st, ps[1..], laterProxies, laterPolicies).value;
      LaterBindingsDiffer(planner, st, ps, b, rest, laterProxies, laterPolicies);
      BoundCons(planner, st, ps, b, rest);
    }
  }

  /** Every live plan of either planner binds distinct profiles to distinct, fitting objects. */
  lemma {:induction false} LivePlanBindsDistinctly(
    planner: Planner, ps: seq<Profile>, st: LiveState, mac: Option<string>, slot: Option<int>, allowMove: bool)
    requires DistinctPorts(ps) && LivePlanFor(planner, ps, st, mac, slot, allowMove).Ok?
    ensures Bound(planner, st, ps, LivePlanFor(planner, ps, st, mac, slot, allowMove).value.bindings)
  {
    BoundAllFits(planner, st, ps, st.proxies.Keys, st.policies.Keys);
  }

  ghost function ProxyIds(bs: seq<BindingPlan>): set<string> {
    if bs == [] then {} else {bs[0].proxyId} + ProxyIds(bs[1..])
  }

  ghost function PolicyIds(bs: seq<BindingPlan>): set<string> {
    if bs == [] then {} else {bs[0].policyId} + PolicyIds(bs[1..])
  }

  lemma {:induction false} BindAllSteps(
    planner: Planner, st: LiveState, ps: seq<Profile>, usedProxies: set<string>, usedPolicies: set<string>)
    requires ps != [] && BindAll(planner, st, ps, usedProxies, usedPolicies).Ok?
    ensures var bs := BindAll(planner, st, ps, usedProxies, usedPolicies).value;
            && BindProfile(planner, st, ps[0], usedProxies, usedPolicies) == Ok(bs[0])
            && BindAll(planner, st, ps[1..], usedProxies + {bs[0].proxyId}, usedPolicies + {bs[0].policyId})
               == Ok(bs[1..])
  {
  }

  lemma {:induction false} IdsSnoc(bs: seq<BindingPlan>, k: nat)
    requires k < |bs|
    ensures ProxyIds(bs[..k + 1]) == ProxyIds(bs[..k]) + {bs[k].proxyId}
    ensures PolicyIds(bs[..k + 1]) == PolicyIds(bs[..k]) + {bs[k].policyId}
  {
    if k == 0 {
      assert bs[..1][1..] == [] && bs[..0] == [];
    } else {
      IdsSnoc(bs[1..], k - 1);
      assert bs[..k + 1][1..] == bs[1..][..k] && bs[..k][1..] == bs[1..][..k - 1];
    }
  }

  /** After k profiles the rest are bound with the ids of those k reserved. */
  lemma {:induction false} BoundFrom(
    planner: Planner, st: LiveState, ps: seq<Profile>, bs: seq<BindingPlan>, usedProxies: set<string>,
    usedPolicies: set<string>, k: nat)
    requires BindAll(planner, st, ps, usedProxies, usedPolicies) == Ok(bs) && k <= |ps|
    ensures BindAll(planner, st, ps[k..], usedProxies + ProxyIds(bs[..k]), usedPolicies + PolicyIds(bs[..k])) ==
            Ok(bs[k..])
  {
    if k == 0 {
      assert ps[0..] == ps && bs[0..] == bs && bs[..0] == [];
      assert usedProxies + {} == usedProxies && usedPolicies + {} == usedPolicies;
    } else {
      BoundFrom(planner, st, ps, bs, usedProxies, usedPolicies, k - 1);
      var reservedProxies, reservedPolicies :=
        usedProxies + ProxyIds(bs[..k - 1]), usedPolicies + PolicyIds(bs[..k - 1]);
      BindAllSteps(planner, st, ps[k - 1..], reservedProxies, reservedPolicies);
      IdsSnoc(bs, k - 1);
      assert ps[k - 1..][1..] == ps[k..] && bs[k - 1..][1..] == bs[k..];
      assert reservedProxies + {bs[k - 1].proxyId} == usedProxies + ProxyIds(bs[..k]);
      assert reservedPolicies + {bs[k - 1].policyId} == usedPolicies + PolicyIds(bs[..k]);
    }
  }

  /** Profile k is bound with the ids of all earlier profiles reserved. */
  lemma {:induction false} BoundAt(
    planner: Planner, st: LiveState, ps: seq<Profile>, bs: seq<BindingPlan>, usedProxies: set<string>,
    usedPolicies: set<string>, k: nat)
    requires BindAll(planner, st, ps, usedProxies, usedPolicies) == Ok(bs) && k < |ps|
    ensures BindProfile(planner, st, ps[k], usedProxies + ProxyIds(bs[..k]), usedPolicies + PolicyIds(bs[..k])) ==
            Ok(bs[k])
  {
    BoundFrom(planner, st, ps, bs, usedProxies, usedPolicies, k);
    BindAllSteps(planner, st, ps[k..], usedProxies + ProxyIds(bs[..k]), usedPolicies + PolicyIds(bs[..k]));
  }

  /** The ids in use when profile k is bound: the observed ones and those of the profiles before it. */
  ghost function ReservedProxies(st: LiveState, bs: seq<BindingPlan>, k: nat): set<string>
    requires k <= |bs|
  {
    st.proxies.Keys + ProxyIds(bs[..k])
  }

  ghost function ReservedPolicies(st: LiveState, bs: seq<BindingPlan>, k: nat): set<string>
    requires k <= |bs|
  {
    st.policies.Keys + PolicyIds(bs[..k])
  }

  lemma {:induction false} CreatedObjectIsNextFree(
    planner: Planner, owned: set<string>, matching: set<string>, used: set<string>, prefix: string, n: nat)
    requires BindObject(planner, owned, matching, used, prefix).Ok?
    ensures var (id, action) := BindObject(planner, owned, matching, used, prefix).value;
            action.Create? && n < NumericId(prefix, id).GetOr(0) ==> !NumberFree(used, prefix, n)
  {
    if BindObject(planner, owned, matching, used, prefix).value.1.Create? {
      NextFreeIsLeast(used, prefix);
    }
  }

  lemma {:induction false} CreatedProfileIsLeast(
    planner: Planner, st: LiveState, p: Profile, usedProxies: set<string>, usedPolicies: set<string>, n: nat)
    requires BindProfile(planner, st, p, usedProxies, usedPolicies).Ok?
    ensures var b := BindProfile(planner, st, p, usedProxies, usedPolicies).value;
            && (b.proxyAction.Create? && n < NumericId(PROXY, b.proxyId).GetOr(0) ==>
                !NumberFree(usedProxies, PROXY, n))
            && (b.policyAction.Create? && n < NumericId(POLICY, b.policyId).GetOr(0) ==>
                !NumberFree(usedPolicies, POLICY, n))
  {
    var b := BindProfile(planner, st, p, usedProxies, usedPolicies).value;
    CreatedObjectIsNextFree(planner, OwnedProxies(st, p), MatchingProxies(st, p), usedProxies, PROXY, n);
    CreatedObjectIsNextFree(planner, OwnedPolicies(st, p), MatchingPolicies(st, b.proxyId), usedPolicies, POLICY, n);
  }

  /** A created id carries the least number free at its turn. */
  lemma {:induction false} CreatedIdsAreLeast(
    planner: Planner, ps: seq<Profile>, st: LiveState, bs: seq<BindingPlan>, k: nat, n: nat)
    requires BindAll(planner, st, ps, st.proxies.Keys, st.policies.Keys) == Ok(bs) && k < |ps|
    ensures bs[k].proxyAction.Create? && n < NumericId(PROXY, bs[k].proxyId).GetOr(0) ==>
              !NumberFree(ReservedProxies(st, bs, k), PROXY, n)
    ensures bs[k].policyAction.Create? && n < NumericId(POLICY, bs[k].policyId).GetOr(0) ==>
              !NumberFree(ReservedPolicies(st, bs, k), POLICY, n)
  {
    BoundAt(planner, st, ps, bs, st.proxies.Keys, st.policies.Keys, k);
    CreatedProfileIsLeast(planner, st, ps[k], ReservedProxies(st, bs, k), ReservedPolicies(st, bs, k), n);
  }

  // ---- When the two planners agree ----

  /** Following the name-based planner, every object that means what a profile needs also carries its name. */
  ghost predicate MeaningsAreNamed(
    st: LiveState, ps: seq<Profile>, usedProxies: set<string>, usedPolicies: set<string>)
  {
    ps == []
    || (var p := ps[0];
        var proxy := BindObject(ByName, OwnedProxies(st, p), MatchingProxies(st, p), usedProxies, PROXY);
        var b := BindProfile(ByName, st, p, usedProxies, usedPolicies);
        && MatchingProxies(st, p) <= OwnedProxies(st, p)
        && (proxy.Ok? ==> MatchingPolicies(st, proxy.value.0) <= OwnedPolicies(st, p))
        && (b.Ok? ==> MeaningsAreNamed(
              st, ps[1..], usedProxies + {b.value.proxyId}, usedPolicies + {b.value.policyId})))
  }

  lemma {:induction false} ObjectsAgree(owned: set<string>, matching: set<string>, used: set<string>, prefix: string)
    requires matching <= owned
    ensures BindObject(ByName, owned, matching, used, prefix) == BindObject(BySemantics, owned, matching, used, prefix)
  {
    if owned <= matching {
      assert owned == matching;
    }
  }

  lemma {:induction false} BindingsAgree(
    st: LiveState, ps: seq<Profile>, usedProxies: set<string>, usedPolicies: set<string>)
    requires MeaningsAreNamed(st, ps, usedProxies, usedPolicies)
    ensures BindAll(ByName, st, ps, usedProxies, usedPolicies) ==
            BindAll(BySemantics, st, ps, usedProxies, usedPolicies)
  {
    if ps != [] {
      var p := ps[0];
      ObjectsAgree(OwnedProxies(st, p), MatchingProxies(st, p), usedProxies, PROXY);
      var proxy := BindObject(ByName, OwnedProxies(st, p), MatchingProxies(st, p), usedProxies, PROXY);
      if proxy.Ok? {
        ObjectsAgree(OwnedPolicies(st, p), MatchingPolicies(st, proxy.value.0), usedPolicies, POLICY);
      }
      var b := BindProfile(ByName, st, p, usedProxies, usedPolicies);
      if b.Ok? {
        BindingsAgree(st, ps[1..], usedProxies + {b.value.proxyId}, usedPolicies + {b.value.policyId});
      }
    }
  }

  /** On such states both planners return the same plan, or both refuse. */
  lemma {:induction false} PlannersAgree(
    ps: seq<Profile>, st: LiveState, mac: Option<string>, slot: Option<int>, allowMove: bool)
    requires MeaningsAreNamed(st, ps, st.proxies.Keys, st.policies.Keys)
    ensures LivePlanFor(ByName, ps, st, mac, slot, allowMove) == LivePlanFor(BySemantics, ps, st, mac, slot, allowMove)
  {
    BindingsAgree(st, ps, st.proxies.Keys, st.policies.Keys);
  }

  // ---- The planner as it runs ----

  method BindOne(planner: Planner, owned: set<string>, matching: set<string>, used: set<string>, prefix: string)
    returns (r: Result<(string, ObjectAction), LiveError>)
    ensures r == BindObject(planner, owned, matching, used, prefix)
  {
    if |owned| > 1 {
      return Err(Refused);
    }
    if !(owned <= matching) {
      return Err(Refused);
    }
    var candidates := match planner { case ByName => owned case BySemantics => matching };
    if |candidates| > 1 {
      return Err(Refused);
    }
    if candidates != {} {
      var id :| id in candidates;
      AtMostOneId(candidates, id, Pick(candidates));
      return Ok((id, Reuse));
    }
    var free := NextFree(used, prefix);
    if free.Err? {
      return Err(Refused);
    }
    return Ok((free.value, Create));
  }

  method BindNext(
    planner: Planner, st: LiveState, p: Profile, usedProxies: set<string>, usedPolicies: set<string>)
    returns (r: Result<BindingPlan, LiveError>)
    ensures r == BindProfile(planner, st, p, usedProxies, usedPolicies)
  {
    var owned := set id | id in st.proxies && ProxyOwned(st.proxies[id], p);
    var matching := set id | id in st.proxies && ProxySemantic(st.proxies[id], p);
    var proxy := BindOne(planner, owned, matching, usedProxies, PROXY);
    if proxy.Err? {
      return Err(Refused);
    }
    var proxyId := proxy.value.0;
    var ownedPolicies := set id | id in st.policies && PolicyOwned(st.policies[id], p);
    var matchingPolicies := set id | id in st.policies && PolicySemantic(st.policies[id], proxyId);
    var policy := BindOne(planner, ownedPolicies, matchingPolicies, usedPolicies, POLICY);
    if policy.Err? {
      return Err(Refused);
    }
    return Ok(BindingPlan(p.slot, p.port, proxyId, policy.value.0, proxy.value.1, policy.value.1));
  }

  /** What the remaining profiles still contribute once the first i are bound. */
  ghost predicate Remaining(
    planner: Planner, st: LiveState, ps: seq<Profile>, i: nat, bs: seq<BindingPlan>, reservedProxies: set<string>,
    reservedPolicies: set<string>)
    requires i <= |ps|
  {
    var all := BindAll(planner, st, ps, st.proxies.Keys, st.policies.Keys);
    var rest := BindAll(planner, st, ps[i..], reservedProxies, reservedPolicies);
    all == if rest.Err? then Err(Refused) else Ok(bs + rest.value)
  }

  lemma {:induction false} RemainingNext(
    planner: Planner, st: LiveState, ps: seq<Profile>, i: nat, bs: seq<BindingPlan>, reservedProxies: set<string>,
    reservedPolicies: set<string>)
    requires i < |ps| && Remaining(planner, st, ps, i, bs, reservedProxies, reservedPolicies)
    ensures var b := BindProfile(planner, st, ps[i], reservedProxies, reservedPolicies);
            if b.Err? then BindAll(planner, st, ps, st.proxies.Keys, st.policies.Keys) == Err(Refused)
            else Remaining(planner, st, ps, i + 1, bs + [b.value], reservedProxies + {b.value.proxyId},
                           reservedPolicies + {b.value.policyId})
  {
    var b := BindProfile(planner, st, ps[i], reservedProxies, reservedPolicies);
    assert ps[i..][1..] == ps[i + 1..];
    if b.Ok? {
      var rest := BindAll(
        planner, st, ps[i + 1..], reservedProxies + {b.value.proxyId}, reservedPolicies + {b.value.policyId});
      if rest.Ok? {
        assert bs + ([b.value] + rest.value) == bs + [b.value] + rest.value;
      }
    }
  }

  lemma {:induction false} RemainingStart(planner: Planner, st: LiveState, ps: seq<Profile>)
    ensures Remaining(planner, st, ps, 0, [], st.proxies.Keys, st.policies.Keys)
  {
    assert ps[0..] == ps;
    var all := BindAll(planner, st, ps, st.proxies.Keys, st.policies.Keys);
    if all.Ok? {
      assert [] + all.value == all.value;
    }
  }

  lemma {:induction false} RemainingEnd(
    planner: Planner, st: LiveState, ps: seq<Profile>, bs: seq<BindingPlan>, reservedProxies: set<string>,
    reservedPolicies: set<string>)
    requires Remaining(planner, st, ps, |ps|, bs, reservedProxies, reservedPolicies)
    ensures BindAll(planner, st, ps, st.proxies.Keys, st.policies.Keys) == Ok(bs)
  {
    assert ps[|ps|..] == [];
    assert bs + [] == bs;
  }

  method BindProfiles(planner: Planner, ps: seq<Profile>, st: LiveState)
    returns (r: Result<seq<BindingPlan>, LiveError>)
    ensures r == BindAll(planner, st, ps, st.proxies.Keys, st.policies.Keys)
  {
    var reservedProxies, reservedPolicies := st.proxies.Keys, st.policies.Keys;
    var bindings := [];
    RemainingStart(planner, st, ps);
    for i := 0 to |ps|
      invariant Remaining(planner, st, ps, i, bindings, reservedProxies, reservedPolicies)
    {
      RemainingNext(planner, st, ps, i, bindings, reservedProxies, reservedPolicies);
      var b := BindNext(planner, st, ps[i], reservedProxies, reservedPolicies);
      if b.Err? {
        return Err(Refused);
      }
      reservedProxies := reservedProxies + {b.value.proxyId};
      reservedPolicies := reservedPolicies + {b.value.policyId};
      bindings := bindings + [b.value];
    }
    RemainingEnd(planner, st, ps, bindings, reservedProxies, reservedPolicies);
    return Ok(bindings);
  }

  /** The live planner: the request is checked, profiles are bound with ids reserved as they are chosen, and an
      existing assignment is kept, made, moved with authority, or refused. */
  method BuildLivePlan(
    planner: Planner, ps: seq<Profile>, st: LiveState, mac: Option<string>, slot: Option<int>, allowMove: bool)
    returns (r: Result<LivePlan, LiveError>)
    ensures r == LivePlanFor(planner, ps, st, mac, slot, allowMove)
  {
    var request := DeviceRequest(ps, mac, slot);
    if request.Err? {
      return Err(Refused);
    }
    var bindings := BindProfiles(planner, ps, st);
    if bindings.Err? {
      return Err(Refused);
    }
    var assignment := NoAssignment;
    if request.value.Some? {
      var (device, target) := request.value.value;
      var policy := TargetPolicy(bindings.value, target);
      var action := ChooseMove(CurrentPolicy(st, device), policy.GetOr(""), allowMove);
      if action.Err? {
        return Err(Refused);
      }
      assignment := action.value;
    }
    return Ok(LivePlan(bindings.value, request.value.Some?, slot, assignment));
  }
}
