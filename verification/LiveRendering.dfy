/** The external planner as it runs: expected state, rendered commands, packet, validator
    (scripts/routerkit_netcraze_external.py:106-314, 349-534). */
module LiveRendering {
  import opened Wrappers
  import opened PlanModel
  import opened LiveModel
  import opened LivePlanner
  import opened LiveTransaction
  import opened LiveEffects
  import opened LivePacket
  import Mac

  // ---- Profiles by slot ----

  /** Bindings and profiles correspond one to one, and slots identify profiles. */
  predicate Aligned(ps: seq<Profile>, bs: seq<BindingPlan>) {
    && |ps| == |bs|
    && (forall k :: 0 <= k < |bs| ==> bs[k].slot == ps[k].slot)
    && (forall k, l :: 0 <= k < l < |ps| ==> ps[k].slot != ps[l].slot)
  }

  /** The dictionary of profiles: a later profile would replace an earlier one with its slot. */
  function ProfilesBySlot(ps: seq<Profile>): map<int, Profile> {
    if ps == [] then map[]
    else
      var last := ps[|ps| - 1];
      ProfilesBySlot(ps[..|ps| - 1])[last.slot := last]
  }

  lemma {:induction false} ProfileAtSlot(ps: seq<Profile>, k: nat)
    requires forall i, j :: 0 <= i < j < |ps| ==> ps[i].slot != ps[j].slot
    requires k < |ps|
    ensures ps[k].slot in ProfilesBySlot(ps) && ProfilesBySlot(ps)[ps[k].slot] == ps[k]
  {
    if k < |ps| - 1 {
      var front := ps[..|ps| - 1];
      ProfileAtSlot(front, k);
      assert front[k] == ps[k];
    }
  }

  // ---- The expected state ----

  method ExpectedState(ps: seq<Profile>, plan: LivePlan, st: LiveState, device: Option<string>)
    returns (r: Result<LiveState, LiveError>)
    requires Aligned(ps, plan.bindings)
    ensures r == ExpectedPostState(ps, plan, st, device)
  {
    var bs := plan.bindings;
    var proxies, policies, assignments := st.proxies, st.policies, st.assignments;
    var profiles := ProfilesBySlot(ps);
    for i := 0 to |bs|
      invariant WithProxies(st.proxies, ps, bs) == WithProxies(proxies, ps[i..], bs[i..])
    {
      ProfileAtSlot(ps, i);
      var profile := profiles[bs[i].slot];
      assert ps[i..][1..] == ps[i + 1..] && bs[i..][1..] == bs[i + 1..];
      if bs[i].proxyAction.Create? {
        if bs[i].proxyId in proxies {
          return Err(Refused);
        }
        proxies := proxies[bs[i].proxyId := ExpectedProxy(profile)];
      }
    }
    for i := 0 to |bs|
      invariant WithPolicies(st.policies, ps, bs) == WithPolicies(policies, ps[i..], bs[i..])
    {
      ProfileAtSlot(ps, i);
      var profile := profiles[bs[i].slot];
      assert ps[i..][1..] == ps[i + 1..] && bs[i..][1..] == bs[i + 1..];
      if bs[i].policyAction.Create? {
        if bs[i].policyId in policies {
          return Err(Refused);
        }
        policies := policies[bs[i].policyId := ExpectedPolicy(bs[i], profile)];
      }
    }
    if device.Some? && plan.selectedSlot.Some? {
      var target := TargetPolicy(bs, plan.selectedSlot.value);
      if (plan.assignment.AssignNew? || plan.assignment.MoveAssignment?) && target.Some? {
        assignments := assignments[device.value := target.value];
      }
    }
    return Ok(LiveState(proxies, policies, assignments, st.guard));
  }

  // ---- Rendering ----

  function Reversed<T>(s: seq<T>): seq<T> {
    if s == [] then [] else Reversed(s[1..]) + [s[0]]
  }

  lemma {:induction false} ReversedSnoc<T>(s: seq<T>, x: T)
    ensures Reversed(s + [x]) == [x] + Reversed(s)
  {
    if s != [] {
      assert (s + [x])[1..] == s[1..] + [x];
      ReversedSnoc(s[1..], x);
    }
  }

  /** What is still to be rendered from binding i on, added to what is rendered, makes the whole. */
  ghost predicate Rendering(
    whole: seq<Step>, rest: seq<Step>, commands: seq<Command>, rollbacks: seq<Command>)
  {
    Commands(whole) == commands + Commands(rest) && Undos(whole) == Undos(rest) + Reversed(rollbacks)
  }

  lemma {:induction false} RenderingNext(
    whole: seq<Step>, s: Step, rest: seq<Step>, commands: seq<Command>, rollbacks: seq<Command>)
    requires Rendering(whole, [s] + rest, commands, rollbacks)
    ensures Rendering(whole, rest, commands + s.commands, rollbacks + [s.undo])
  {
    assert ([s] + rest)[1..] == rest;
    assert commands + (s.commands + Commands(rest)) == commands + s.commands + Commands(rest);
    ReversedSnoc(rollbacks, s.undo);
    assert Undos(rest) + [s.undo] + Reversed(rollbacks) == Undos(rest) + ([s.undo] + Reversed(rollbacks));
  }

  method RenderProxies(ps: seq<Profile>, bs: seq<BindingPlan>) returns (commands: seq<Command>, rollbacks: seq<Command>)
    requires Aligned(ps, bs)
    ensures commands == Commands(ProxySteps(ps, bs)) && Reversed(rollbacks) == Undos(ProxySteps(ps, bs))
  {
    commands, rollbacks := [], [];
    var profiles := ProfilesBySlot(ps);
    for i := 0 to |bs|
      invariant Rendering(ProxySteps(ps, bs), ProxySteps(ps[i..], bs[i..]), commands, rollbacks)
    {
      ProfileAtSlot(ps, i);
      var b, profile := bs[i], profiles[bs[i].slot];
      assert ps[i..][1..] == ps[i + 1..] && bs[i..][1..] == bs[i + 1..];
      if b.proxyAction.Create? {
        var created := ProxyCreateCommands(b, profile);
        RenderingNext(ProxySteps(ps, bs), Step(created, RemoveInterface(b.proxyId)),
                      ProxySteps(ps[i + 1..], bs[i + 1..]), commands, rollbacks);
        commands := commands + created;
        rollbacks := rollbacks + [RemoveInterface(b.proxyId)];
      }
    }
  }

  method RenderPolicies(ps: seq<Profile>, bs: seq<BindingPlan>)
    returns (commands: seq<Command>, rollbacks: seq<Command>)
    requires Aligned(ps, bs)
    ensures commands == Commands(PolicySteps(ps, bs)) && Reversed(rollbacks) == Undos(PolicySteps(ps, bs))
  {
    commands, rollbacks := [], [];
    var profiles := ProfilesBySlot(ps);
    for i := 0 to |bs|
      invariant Rendering(PolicySteps(ps, bs), PolicySteps(ps[i..], bs[i..]), commands, rollbacks)
    {
      ProfileAtSlot(ps, i);
      var b, profile := bs[i], profiles[bs[i].slot];
      assert ps[i..][1..] == ps[i + 1..] && bs[i..][1..] == bs[i + 1..];
      if b.policyAction.Create? {
        var created := PolicyCreateCommands(b, profile);
        RenderingNext(PolicySteps(ps, bs), Step(created, Command.RemovePolicy(b.policyId)),
                      PolicySteps(ps[i + 1..], bs[i + 1..]), commands, rollbacks);
        commands := commands + created;
        rollbacks := rollbacks + [Command.RemovePolicy(b.policyId)];
      }
    }
  }

  /** All proxies, then all policies, then the assignment; rolled back in the opposite order. */
  method RenderCommands(ps: seq<Profile>, bs: seq<BindingPlan>, a: AssignmentRecord)
    returns (commands: seq<Command>, rollbackCommands: seq<Command>)
    requires Aligned(ps, bs)
    ensures commands == Commands(Steps(ps, bs, a)) && rollbackCommands == Undos(Steps(ps, bs, a))
  {
    var proxyCommands, proxyRollbacks := RenderProxies(ps, bs);
    var policyCommands, policyRollbacks := RenderPolicies(ps, bs);
    commands := proxyCommands + policyCommands;
    var assignmentRollback := [];
    if Writes(a) {
      commands := commands + [AssignHost(a.mac.value, a.target.value)];
      assignmentRollback := [match a.previous {
        case None => UnassignHost(a.mac.value)
        case Some(previous) => AssignHost(a.mac.value, previous)
      }];
    }
    rollbackCommands := assignmentRollback + Reversed(policyRollbacks) + Reversed(proxyRollbacks);
    AssignmentRendering(a);
    StepsRendering(ProxySteps(ps, bs), PolicySteps(ps, bs), AssignmentSteps(a));
  }

  lemma {:induction false} StepsRendering(x: seq<Step>, y: seq<Step>, z: seq<Step>)
    ensures Commands(x + y + z) == Commands(x) + Commands(y) + Commands(z)
    ensures Undos(x + y + z) == Undos(z) + Undos(y) + Undos(x)
  {
    CommandsAppend(x, y);
    CommandsAppend(x + y, z);
  }

  lemma {:induction false} AssignmentRendering(a: AssignmentRecord)
    ensures Commands(AssignmentSteps(a)) == if Writes(a) then [AssignHost(a.mac.value, a.target.value)] else []
    ensures Undos(AssignmentSteps(a)) == if Writes(a) then [UndoAssignment(a)] else []
  {
    if Writes(a) {
      var z := AssignmentSteps(a);
      assert z[1..] == [] && Commands(z[1..]) == [] && Undos(z[1..]) == [];
      assert z[0].commands + [] == z[0].commands;
    }
  }

  // ---- Validation ----

  function Distinct(ids: seq<string>): bool {
    forall k, l :: 0 <= k < l < |ids| ==> ids[k] != ids[l]
  }

  function Members(ids: seq<string>): set<string> {
    set id | id in ids
  }

  lemma {:induction false} SnocDistinct(front: seq<string>, last: string)
    requires last !in front
    ensures Distinct(front + [last]) <==> Distinct(front)
  {
    var ids := front + [last];
    if Distinct(ids) {
      forall k, l | 0 <= k < l < |front| ensures front[k] != front[l] {
        assert ids[k] != ids[l];
      }
    }
  }

  /** Comparing the length of a list with the size of its set finds duplicates. */
  lemma {:induction false} SizeShowsDuplicates(ids: seq<string>)
    ensures |Members(ids)| <= |ids|
    ensures |Members(ids)| == |ids| <==> Distinct(ids)
  {
    if ids != [] {
      var front, last := ids[..|ids| - 1], ids[|ids| - 1];
      SizeShowsDuplicates(front);
      assert ids == front + [last];
      assert Members(ids) == Members(front) + {last};
      if last in front {
        assert Members(ids) == Members(front);
        var k :| 0 <= k < |front| && front[k] == last;
        assert ids[k] == ids[|ids| - 1];
      } else {
        SnocDistinct(front, last);
      }
    }
  }

  method ValidateBindings(xs: seq<PacketBinding>, ps: seq<Profile>) returns (ok: bool)
    ensures ok <==> BindingsValid(xs, ps)
  {
    if |xs| != |ps| {
      return false;
    }
    var proxyIds, policyIds := [], [];
    for i := 0 to |xs|
      invariant |proxyIds| == |policyIds| == i
      invariant forall k :: 0 <= k < i ==> BindingValid(xs[k], ps[k])
      invariant forall k :: 0 <= k < i ==> proxyIds[k] == xs[k].proxyId && policyIds[k] == xs[k].policyId
    {
      if !BindingValid(xs[i], ps[i]) {
        return false;
      }
      proxyIds := proxyIds + [xs[i].proxyId];
      policyIds := policyIds + [xs[i].policyId];
    }
    SizeShowsDuplicates(proxyIds);
    SizeShowsDuplicates(policyIds);
    ok := |Members(proxyIds)| == |proxyIds| && |Members(policyIds)| == |policyIds|;
    DistinctColumns(xs, proxyIds, policyIds);
  }

  lemma {:induction false} DistinctColumns(xs: seq<PacketBinding>, proxyIds: seq<string>, policyIds: seq<string>)
    requires |xs| == |proxyIds| == |policyIds|
    requires forall k :: 0 <= k < |xs| ==> proxyIds[k] == xs[k].proxyId && policyIds[k] == xs[k].policyId
    ensures Distinct(proxyIds) && Distinct(policyIds) <==>
            (forall k, l :: 0 <= k < l < |xs| ==> xs[k].proxyId != xs[l].proxyId && xs[k].policyId != xs[l].policyId)
  {
    if !Distinct(proxyIds) {
      var k, l :| 0 <= k < l < |xs| && proxyIds[k] == proxyIds[l];
      assert xs[k].proxyId == xs[l].proxyId;
    } else if !Distinct(policyIds) {
      var k, l :| 0 <= k < l < |xs| && policyIds[k] == policyIds[l];
      assert xs[k].policyId == xs[l].policyId;
    } else {
      forall k, l | 0 <= k < l < |xs| ensures xs[k].proxyId != xs[l].proxyId && xs[k].policyId != xs[l].policyId {
        assert proxyIds[k] != proxyIds[l] && policyIds[k] != policyIds[l];
      }
    }
  }

  lemma {:induction false} ValidBindingsAlign(body: Body, ps: seq<Profile>)
    requires BindingsValid(body.bindings, ps)
    requires forall k, l :: 0 <= k < l < |ps| ==> ps[k].slot != ps[l].slot
    ensures Aligned(ps, PacketPlan(body).bindings)
  {
    var bs := PacketPlan(body).bindings;
    forall k | 0 <= k < |bs| ensures bs[k].slot == ps[k].slot {
      assert BindingValid(body.bindings[k], ps[k]);
    }
  }

  /** The packet on its own terms: nothing in it is taken on trust but the two state fingerprints. */
  method ValidatePacket(packet: Packet, ps: seq<Profile>) returns (r: Result<LivePlan, LiveError>)
    requires forall k, l :: 0 <= k < l < |ps| ==> ps[k].slot != ps[l].slot
    ensures r == if Valid(packet, ps) then Ok(PacketPlan(packet.body)) else Err(Refused)
  {
    var body := packet.body;
    if body.schema != SCHEMA || body.contract != CONTRACT || body.snapshotMode != SNAPSHOT_MODE || body.manifest != ps {
      return Err(Refused);
    }
    if packet.fingerprint != body || body.defaultTargeted || body.rawIncluded {
      return Err(Refused);
    }
    var bindingsOk := ValidateBindings(body.bindings, ps);
    if !bindingsOk {
      return Err(Refused);
    }
    var plan := PacketPlan(body);
    if !AssignmentValid(body.assignment, plan.bindings) {
      return Err(Refused);
    }
    ValidBindingsAlign(body, ps);
    var commands, rollbacks := RenderCommands(ps, plan.bindings, body.assignment);
    if body.commands != commands || body.rollbackCommands != rollbacks {
      return Err(Refused);
    }
    var writes := commands != [];
    if !(body.backupRequired == body.writeRequired == body.saveRequired == writes)
       || !(body.preSaveVerification == body.savedVerification == writes)
       || body.saveCommand != (if writes then Some(Save) else None)
    {
      return Err(Refused);
    }
    if !writes && body.pre != body.post {
      return Err(Refused);
    }
    if body.expectations != Expectations(body.post, body.guard, 1, true, true, false) {
      return Err(Refused);
    }
    return Ok(plan);
  }

  /** `build_external_transaction`. */
  method BuildExternal(
    ps: seq<Profile>, contract: string, st: LiveState, mac: Option<string>, slot: Option<int>, allowMove: bool)
    returns (r: Result<Packet, LiveError>)
    requires DistinctPorts(ps) && (forall k, l :: 0 <= k < l < |ps| ==> ps[k].slot != ps[l].slot)
    ensures r == PacketFor(ps, contract, st, mac, slot, allowMove)
  {
    if contract != CONTRACT {
      return Err(Refused);
    }
    var device := None;
    if mac.Some? {
      device := Mac.NormalizeMac(mac.value);
      if device.None? {
        return Err(Refused);
      }
    }
    var planned := BuildLivePlan(BySemantics, ps, st, device, slot, allowMove);
    if planned.Err? {
      return Err(Refused);
    }
    var plan := planned.value;
    LivePlanFits(BySemantics, ps, st, device, slot, allowMove);
    BoundSlots(BySemantics, st, ps, plan.bindings);
    var assignment := AssignmentPayload(plan, st, device);
    var commands, rollbacks := RenderCommands(ps, plan.bindings, assignment);
    var writes := commands != [];
    var expected := ExpectedState(ps, plan, st, device);
    if expected.Err? {
      return Err(Refused);
    }
    var post, guard := Fingerprint(expected.value), GuardFingerprint(st);
    var body := Body(
      SCHEMA, contract, SNAPSHOT_MODE, ps, Fingerprint(st), post, guard, PacketBindings(ps, plan.bindings), assignment,
      false, writes, writes, writes, commands, rollbacks, writes, if writes then Some(Save) else None, writes, false,
      Expectations(post, guard, 1, true, true, false));
    var packet := Packet(body, body);
    var validated := ValidatePacket(packet, ps);
    if validated.Err? {
      return Err(Refused);
    }
    return Ok(packet);
  }
}
