/** What validation of a packet establishes: nothing in it is free once the objects it names are known, and its commands
    do to a router exactly what its bindings and its assignment say
    (scripts/routerkit_netcraze_external.py:366-534). */
module LivePacketMeaning {
  import opened Wrappers
  import opened Text
  import opened PlanModel
  import opened LiveModel
  import opened LivePlanner
  import opened LiveTransaction
  import opened LiveEffects
  import opened LivePacket
  import Mac

  // ---- Validation determines a packet ----

  /** The two packets name the same native objects and do the same with them. */
  predicate SameObjects(xs: seq<PacketBinding>, ys: seq<PacketBinding>) {
    && |xs| == |ys|
    && forall k :: 0 <= k < |xs| ==>
         && xs[k].proxyId == ys[k].proxyId && xs[k].policyId == ys[k].policyId
         && xs[k].proxyAction == ys[k].proxyAction && xs[k].policyAction == ys[k].policyAction
  }

  lemma {:induction false} SameBindings(xs: seq<PacketBinding>, ys: seq<PacketBinding>, ps: seq<Profile>)
    requires BindingsValid(xs, ps) && BindingsValid(ys, ps) && SameObjects(xs, ys)
    ensures xs == ys
  {
    forall k | 0 <= k < |xs| ensures xs[k] == ys[k] {
      assert BindingValid(xs[k], ps[k]) && BindingValid(ys[k], ps[k]);
    }
  }

  /** Two valid packets for one manifest that agree on the states they go between, on the native objects and on the
      assignment are the same packet: commands, rollback, gates, expectations and fingerprint leave no choice. */
  lemma {:induction false} ValidationDeterminesPacket(x: Packet, y: Packet, ps: seq<Profile>)
    requires Valid(x, ps) && Valid(y, ps)
    requires x.body.pre == y.body.pre && x.body.post == y.body.post && x.body.guard == y.body.guard
    requires SameObjects(x.body.bindings, y.body.bindings) && x.body.assignment == y.body.assignment
    ensures x == y
  {
    SameBindings(x.body.bindings, y.body.bindings, ps);
  }

  // ---- What the commands of a valid packet do ----

  /** The objects the packet creates are not there yet. */
  predicate SlotsAreFree(body: Body, st: LiveState) {
    && (forall x :: x in body.bindings && x.proxyAction.Create? ==> x.proxyId !in st.proxies)
    && (forall x :: x in body.bindings && x.policyAction.Create? ==> x.policyId !in st.policies)
  }

  /** The device is where the packet says it was. */
  predicate AssignmentIsRecorded(a: AssignmentRecord, st: LiveState) {
    a.mac.Some? ==>
      if a.previous.None? then a.mac.value !in st.assignments
      else a.mac.value in st.assignments && st.assignments[a.mac.value] == a.previous.value
  }

  /** One switched-on SOCKS5 proxy for each binding that creates one; every other proxy is as it was. */
  ghost predicate ProxiesMade(body: Body, ps: seq<Profile>, before: map<string, Proxy>, after: map<string, Proxy>)
    requires |ps| == |body.bindings|
  {
    && (forall k :: 0 <= k < |ps| && body.bindings[k].proxyAction.Create? ==>
          && body.bindings[k].proxyId in after
          && after[body.bindings[k].proxyId]
             == Proxy("RouterKit-SOCKS-" + IntText(ps[k].port), "socks5", ps[k].host, ps[k].port, true, false))
    && (forall id :: id in after && (forall x :: x in body.bindings && x.proxyAction.Create? ==> x.proxyId != id) ==>
          id in before && after[id] == before[id])
    && (forall id :: id in before ==> id in after && after[id] == before[id])
  }

  /** One policy through the binding's own proxy for each binding that creates one; every other policy is as it was. */
  ghost predicate PoliciesMade(
    body: Body, ps: seq<Profile>, before: map<string, NativePolicy>, after: map<string, NativePolicy>)
    requires |ps| == |body.bindings|
  {
    && (forall k :: 0 <= k < |ps| && body.bindings[k].policyAction.Create? ==>
          && body.bindings[k].policyId in after
          && after[body.bindings[k].policyId]
             == NativePolicy("RouterKit-Policy-" + IntText(ps[k].port), [body.bindings[k].proxyId]))
    && (forall id :: id in after && (forall x :: x in body.bindings && x.policyAction.Create? ==> x.policyId != id) ==>
          id in before && after[id] == before[id])
    && (forall id :: id in before ==> id in after && after[id] == before[id])
  }

  /** The device ends on the policy of the binding it selects; nobody else is touched. */
  ghost predicate AssignmentMade(body: Body, before: map<string, string>, after: map<string, string>) {
    var a := body.assignment;
    match a.action
    case NoAssignment => after == before
    case KeepAssignment =>
      after == before && a.mac.Some? && exists x :: Selected(body, x) && (a.mac.value, x.policyId) in after.Items
    case _ => a.mac.Some? && exists x :: Selected(body, x) && after == before[a.mac.value := x.policyId]
  }

  predicate Selected(body: Body, x: PacketBinding) {
    x in body.bindings && body.assignment.slot == Some(x.slot)
  }

  /** What the action says about the device before the change. */
  predicate ActionDescribes(body: Body, before: map<string, string>) {
    var a := body.assignment;
    match a.action
    case NoAssignment => a == AssignmentRecord(NoAssignment, None, None, None, None)
    case AssignNew => a.mac.Some? && Mac.NormalizeMac(a.mac.value) == a.mac && a.mac.value !in before
    case KeepAssignment => a.mac.Some? && Mac.NormalizeMac(a.mac.value) == a.mac && a.mac.value in before
    case MoveAssignment =>
      && a.mac.Some? && Mac.NormalizeMac(a.mac.value) == a.mac
      && a.mac.value in before && Some(before[a.mac.value]) != a.target
  }

  lemma {:induction false} PlanIsFresh(body: Body, ps: seq<Profile>, st: LiveState)
    requires BindingsValid(body.bindings, ps) && SlotsAreFree(body, st)
    ensures FreshIds(st.proxies.Keys, st.policies.Keys, PacketPlan(body).bindings)
    ensures forall k :: 0 <= k < |ps| ==> PacketPlan(body).bindings[k].slot == ps[k].slot
  {
    var xs, bs := body.bindings, PacketPlan(body).bindings;
    forall k | 0 <= k < |bs| ensures bs[k] == PlanBinding(xs[k]) && xs[k] in xs && BindingValid(xs[k], ps[k]) {
    }
    forall k, l | 0 <= k < l < |bs| ensures bs[k].proxyId != bs[l].proxyId && bs[k].policyId != bs[l].policyId {
      assert xs[k].proxyId != xs[l].proxyId && xs[k].policyId != xs[l].policyId;
    }
  }

  lemma {:induction false} ExtendedIsMade(
    body: Body, ps: seq<Profile>, before: map<string, Proxy>, after: map<string, Proxy>)
    requires |ps| == |body.bindings|
    requires ProxiesExtended(before, Booted(ps), PacketPlan(body).bindings, after)
    ensures ProxiesMade(body, ps, before, after)
  {
    var xs, bs := body.bindings, PacketPlan(body).bindings;
    forall k | 0 <= k < |ps| && xs[k].proxyAction.Create?
      ensures xs[k].proxyId in after
      ensures after[xs[k].proxyId]
              == Proxy("RouterKit-SOCKS-" + IntText(ps[k].port), "socks5", ps[k].host, ps[k].port, true, false)
    {
      assert bs[k] == PlanBinding(xs[k]);
    }
    forall id | id in after && id !in before ensures exists x :: x in xs && x.proxyAction.Create? && x.proxyId == id {
      var k :| 0 <= k < |bs| && bs[k].proxyAction.Create? && bs[k].proxyId == id;
      assert xs[k] in xs && bs[k] == PlanBinding(xs[k]);
    }
  }

  lemma {:induction false} ExtendedPoliciesAreMade(
    body: Body, ps: seq<Profile>, before: map<string, NativePolicy>, after: map<string, NativePolicy>)
    requires |ps| == |body.bindings|
    requires PoliciesExtended(before, ps, PacketPlan(body).bindings, after)
    ensures PoliciesMade(body, ps, before, after)
  {
    var xs, bs := body.bindings, PacketPlan(body).bindings;
    forall k | 0 <= k < |ps| && xs[k].policyAction.Create?
      ensures xs[k].policyId in after
      ensures after[xs[k].policyId] == NativePolicy("RouterKit-Policy-" + IntText(ps[k].port), [xs[k].proxyId])
    {
      assert bs[k] == PlanBinding(xs[k]);
    }
    forall id | id in after && id !in before ensures exists x :: x in xs && x.policyAction.Create? && x.policyId == id {
      var k :| 0 <= k < |bs| && bs[k].policyAction.Create? && bs[k].policyId == id;
      assert xs[k] in xs && bs[k] == PlanBinding(xs[k]);
    }
  }

  lemma {:induction false} TargetIsSelected(body: Body, ps: seq<Profile>)
    requires BindingsValid(body.bindings, ps) && AssignmentValid(body.assignment, PacketPlan(body).bindings)
    requires !body.assignment.action.NoAssignment?
    ensures exists x :: Selected(body, x) && body.assignment.target == Some(x.policyId)
  {
    var xs, bs := body.bindings, PacketPlan(body).bindings;
    forall k | 0 <= k < |ps| ensures bs[k].slot == ps[k].slot {
      assert BindingValid(xs[k], ps[k]);
    }
    TargetIsBound(ps, bs, body.assignment.slot.value);
    var k :| 0 <= k < |bs| && bs[k].slot == body.assignment.slot.value
             && body.assignment.target == Some(bs[k].policyId);
    assert xs[k] in xs && bs[k] == PlanBinding(xs[k]);
  }

  lemma {:induction false} ActionIsDescribed(body: Body, bs: seq<BindingPlan>, st: LiveState)
    requires AssignmentValid(body.assignment, bs) && AssignmentIsRecorded(body.assignment, st)
    ensures ActionDescribes(body, st.assignments)
  {
  }

  lemma {:induction false} AssignmentIsMade(body: Body, ps: seq<Profile>, st: LiveState)
    requires BindingsValid(body.bindings, ps) && AssignmentValid(body.assignment, PacketPlan(body).bindings)
    requires AssignmentIsRecorded(body.assignment, st)
    ensures AssignmentMade(body, st.assignments, WithAssignment(st.assignments, body.assignment))
    ensures Writes(body.assignment) ==> CurrentPolicy(st, body.assignment.mac.value) == body.assignment.previous
  {
    if !body.assignment.action.NoAssignment? {
      TargetIsSelected(body, ps);
    }
  }

  lemma {:induction false} PacketCommands(body: Body, ps: seq<Profile>)
    requires BindingsValid(body.bindings, ps) && CommandsValid(body, ps)
    ensures body.commands == Commands(Steps(ps, PacketPlan(body).bindings, body.assignment))
    ensures body.rollbackCommands == Undos(Steps(ps, PacketPlan(body).bindings, body.assignment))
  {
  }

  /** Run on a state where the slots it creates are free and the device is where it was, the commands of any valid
      packet make exactly the objects its bindings call for, put the device where its assignment says, and touch
      nothing else; its rollback commands then restore that state. */
  lemma {:induction false} ValidPacketDoesWhatItSays(packet: Packet, ps: seq<Profile>, st: LiveState)
    requires Valid(packet, ps) && SlotsAreFree(packet.body, st) && AssignmentIsRecorded(packet.body.assignment, st)
    ensures var reached := ExecAll(st, packet.body.commands);
            && ProxiesMade(packet.body, ps, st.proxies, reached.proxies)
            && PoliciesMade(packet.body, ps, st.policies, reached.policies)
            && AssignmentMade(packet.body, st.assignments, reached.assignments)
            && ActionDescribes(packet.body, st.assignments)
            && reached.guard == st.guard
            && ExecAll(reached, packet.body.rollbackCommands) == st
  {
    var body, bs := packet.body, PacketPlan(packet.body).bindings;
    PacketCommands(body, ps);
    PlanIsFresh(body, ps, st);
    FreshSlotsAreFree(st.proxies, st.policies, ps, bs);
    FreshSlotsAreFree(st.proxies, st.policies, Booted(ps), bs);
    AssignmentIsMade(body, ps, st);
    ActionIsDescribed(body, bs, st);
    CommandsRun(ps, bs, st, body.assignment);
    UndoneSteps(st, Steps(ps, bs, body.assignment));
    ProxiesAreExtended(st.proxies, Booted(ps), bs);
    PoliciesAreExtended(st.policies, ps, bs);
    ExtendedIsMade(body, ps, st.proxies, WithProxies(st.proxies, Booted(ps), bs).value);
    ExtendedPoliciesAreMade(body, ps, st.policies, WithPolicies(st.policies, ps, bs).value);
  }

  // ---- When a valid packet writes ----

  /** The bindings or the assignment call for a change. */
  predicate CallsForChange(body: Body) {
    || (exists x :: x in body.bindings && (x.proxyAction.Create? || x.policyAction.Create?))
    || body.assignment.action.AssignNew? || body.assignment.action.MoveAssignment?
  }

  lemma {:induction false} NoChangeCalled(body: Body)
    ensures (forall x :: x in body.bindings ==> x.proxyAction.Reuse? && x.policyAction.Reuse?)
            <==> CreatesNothing(PacketPlan(body).bindings)
  {
    var xs, bs := body.bindings, PacketPlan(body).bindings;
    forall k | 0 <= k < |xs| ensures xs[k] in xs && bs[k] in bs && bs[k] == PlanBinding(xs[k]) {
    }
    if CreatesNothing(bs) {
      forall x | x in xs ensures x.proxyAction.Reuse? && x.policyAction.Reuse? {
        var k :| 0 <= k < |xs| && xs[k] == x;
        assert bs[k] in bs;
      }
    }
  }

  lemma {:induction false} CommandsAppear(ps: seq<Profile>, bs: seq<BindingPlan>, a: AssignmentRecord)
    requires |ps| == |bs|
    ensures Commands(Steps(ps, bs, a)) == [] <==> CreatesNothing(bs) && !Writes(a)
  {
    NoCreationNoSteps(ps, bs);
    CommandsAppend(ProxySteps(ps, bs), PolicySteps(ps, bs));
    CommandsAppend(ProxySteps(ps, bs) + PolicySteps(ps, bs), AssignmentSteps(a));
    assert Commands(AssignmentSteps(a)) == [] <==> !Writes(a);
  }

  /** A valid packet asks for a backup, writes, saves and verifies exactly when its bindings or its assignment call for
      a change; otherwise it expects the state it starts from. */
  lemma {:induction false} ValidPacketGates(packet: Packet, ps: seq<Profile>)
    requires Valid(packet, ps)
    ensures var body := packet.body;
            && (body.commands != [] <==> CallsForChange(body))
            && (body.backupRequired <==> CallsForChange(body)) && (body.writeRequired <==> CallsForChange(body))
            && (body.saveRequired <==> CallsForChange(body)) && (body.preSaveVerification <==> CallsForChange(body))
            && (body.savedVerification <==> CallsForChange(body))
            && body.saveCommand == (if CallsForChange(body) then Some(Save) else None)
            && (CallsForChange(body) || body.pre == body.post)
            && body.expectations.post == body.post && body.expectations.guard == body.guard
            && !body.defaultTargeted && !body.rawIncluded
  {
    var body := packet.body;
    NoChangeCalled(body);
    CommandsAppear(ps, PacketPlan(body).bindings, body.assignment);
    PacketCommands(body, ps);
  }
}
