/** The external transaction packet: built from a plan, validated on its own, verified against an observed state
    (scripts/routerkit_netcraze_external.py:223-619). */
module LivePacket {
  import opened Wrappers
  import opened PlanModel
  import opened LiveModel
  import opened LivePlanner
  import opened LiveTransaction
  import opened LiveEffects
  import opened LiveVerification
  import opened Ordering
  import opened Sets
  import opened Text
  import Mac

  const SCHEMA := "routerkit.netcraze.external-transaction.v1"
  const CONTRACT := "nc3812-netcrazeos-5.1.5"
  const SNAPSHOT_MODE := "owner-only-running-config-file"

  datatype PacketEndpoint = PacketEndpoint(protocol: string, host: string, port: int, enabled: bool, authMode: string)

  datatype PacketBinding = PacketBinding(
    slot: int, profileLabel: string, endpoint: PacketEndpoint, proxyId: string, policyId: string,
    proxyAction: ObjectAction, policyAction: ObjectAction)

  /** A fingerprint is the canonical value it digests. */
  datatype Expectations = Expectations(
    post: LiveState, guard: seq<string>, matchCount: int, guardUnchanged: bool, freshSnapshot: bool,
    transportTrusted: bool)

  datatype Body = Body(
    schema: string, contract: string, snapshotMode: string, manifest: seq<Profile>, pre: LiveState, post: LiveState,
    guard: seq<string>, bindings: seq<PacketBinding>, assignment: AssignmentRecord, defaultTargeted: bool,
    backupRequired: bool, writeRequired: bool, saveRequired: bool, commands: seq<Command>,
    rollbackCommands: seq<Command>, preSaveVerification: bool, saveCommand: Option<Command>, savedVerification: bool,
    rawIncluded: bool, expectations: Expectations)

  datatype Packet = Packet(body: Body, fingerprint: Body)

  /** The canonical rendering of a state: keyed objects, and the guard lines sorted. */
  function Fingerprint(st: LiveState): LiveState {
    st.(guard := GuardFingerprint(st))
  }

  function GuardFingerprint(st: LiveState): seq<string> {
    Sort(LexLeq, st.guard)
  }

  // ---- Building ----

  function PacketBindingOf(b: BindingPlan, p: Profile): PacketBinding {
    PacketBinding(b.slot, p.profileLabel, PacketEndpoint(p.protocol, p.host, p.port, p.enabled, p.authMode), b.proxyId,
                  b.policyId, b.proxyAction, b.policyAction)
  }

  function PacketBindings(ps: seq<Profile>, bs: seq<BindingPlan>): (r: seq<PacketBinding>)
    requires |ps| == |bs|
    ensures |r| == |bs|
  {
    seq(|bs|, k requires 0 <= k < |bs| => PacketBindingOf(bs[k], ps[k]))
  }

  function BodyFor(ps: seq<Profile>, plan: LivePlan, st: LiveState, device: Option<string>, post: LiveState): Body
    requires |ps| == |plan.bindings|
  {
    var a, steps := AssignmentPayload(plan, st, device), PlanSteps(ps, plan, st, device);
    var writes := Commands(steps) != [];
    Body(SCHEMA, CONTRACT, SNAPSHOT_MODE, ps, Fingerprint(st), Fingerprint(post), GuardFingerprint(st),
         PacketBindings(ps, plan.bindings), a, false, writes, writes, writes, Commands(steps), Undos(steps), writes,
         if writes then Some(Save) else None, writes, false,
         Expectations(Fingerprint(post), GuardFingerprint(st), 1, true, true, false))
  }

  // ---- Validation ----

  function PlanBinding(x: PacketBinding): BindingPlan {
    BindingPlan(x.slot, x.endpoint.port, x.proxyId, x.policyId, x.proxyAction, x.policyAction)
  }

  function PacketPlan(body: Body): (r: LivePlan)
    ensures |r.bindings| == |body.bindings|
  {
    var xs := body.bindings;
    LivePlan(seq(|xs|, k requires 0 <= k < |xs| => PlanBinding(xs[k])), body.assignment.mac.Some?, body.assignment.slot,
             body.assignment.action)
  }

  predicate BindingValid(x: PacketBinding, p: Profile) {
    && x.slot == p.slot && x.profileLabel == p.profileLabel
    && x.endpoint == PacketEndpoint(p.protocol, p.host, p.port, p.enabled, p.authMode)
    && InRange(PROXY, x.proxyId) && InRange(POLICY, x.policyId)
  }

  predicate BindingsValid(xs: seq<PacketBinding>, ps: seq<Profile>) {
    && |xs| == |ps|
    && (forall k :: 0 <= k < |xs| ==> BindingValid(xs[k], ps[k]))
    && (forall k, l :: 0 <= k < l < |xs| ==> xs[k].proxyId != xs[l].proxyId && xs[k].policyId != xs[l].policyId)
  }

  predicate AssignmentValid(a: AssignmentRecord, bs: seq<BindingPlan>) {
    if a.action.NoAssignment? then a == NO_ASSIGNMENT
    else
      && a.mac.Some? && Mac.NormalizeMac(a.mac.value) == a.mac
      && a.slot.Some? && TargetPolicy(bs, a.slot.value).Some? && a.target == TargetPolicy(bs, a.slot.value)
      && (a.previous.Some? ==> InRange(POLICY, a.previous.value))
      && (match a.action
          case NoAssignment => true
          case AssignNew => a.previous.None?
          case KeepAssignment => a.previous == a.target
          case MoveAssignment => a.previous.Some? && a.previous != a.target)
  }

  /** The gates that go with writing, and the commands re-rendered from the packet's own plan. */
  predicate CommandsValid(body: Body, ps: seq<Profile>)
    requires |ps| == |body.bindings|
  {
    var steps := Steps(ps, PacketPlan(body).bindings, body.assignment);
    var writes := Commands(steps) != [];
    && body.commands == Commands(steps) && body.rollbackCommands == Undos(steps)
    && body.backupRequired == body.writeRequired == body.saveRequired == writes
    && body.preSaveVerification == body.savedVerification == writes
    && body.saveCommand == (if writes then Some(Save) else None)
    && (!writes ==> body.pre == body.post)
  }

  predicate Valid(packet: Packet, ps: seq<Profile>) {
    var body := packet.body;
    && body.schema == SCHEMA && body.contract == CONTRACT && body.snapshotMode == SNAPSHOT_MODE
    && body.manifest == ps && packet.fingerprint == body
    && !body.defaultTargeted && !body.rawIncluded
    && BindingsValid(body.bindings, ps)
    && AssignmentValid(body.assignment, PacketPlan(body).bindings)
    && CommandsValid(body, ps)
    && body.expectations == Expectations(body.post, body.guard, 1, true, true, false)
  }

  // ---- What a caller gets ----

  /** `build_external_transaction`: normalise, plan by semantics, render, predict, and validate the result. */
  ghost function PacketFor(
    ps: seq<Profile>, contract: string, st: LiveState, mac: Option<string>, slot: Option<int>, allowMove: bool)
    : Result<Packet, LiveError>
  {
    var device := DeviceOf(mac);
    if contract != CONTRACT || (mac.Some? && device.None?) then Err(Refused)
    else
      var planned := LivePlanFor(BySemantics, ps, st, device, slot, allowMove);
      if planned.Err? || |planned.value.bindings| != |ps| then Err(Refused)
      else
        var post := ExpectedPostState(ps, planned.value, st, device);
        if post.Err? then Err(Refused)
        else
          var body := BodyFor(ps, planned.value, st, device, post.value);
          if Valid(Packet(body, body), ps) then Ok(Packet(body, body)) else Err(Refused)
  }

  // ---- When a built packet is valid ----

  /** Every identifier the packet names is one the adapter supports. */
  predicate IdsInRange(bs: seq<BindingPlan>, previous: Option<string>) {
    && (forall k :: 0 <= k < |bs| ==> InRange(PROXY, bs[k].proxyId) && InRange(POLICY, bs[k].policyId))
    && (previous.Some? ==> InRange(POLICY, previous.value))
  }

  lemma {:induction false} PacketPlanRecovers(
    planner: Planner, ps: seq<Profile>, plan: LivePlan, st: LiveState, device: Option<string>, post: LiveState)
    requires PlanFits(planner, ps, plan, st, device)
    ensures PacketPlan(BodyFor(ps, plan, st, device, post)) == plan
  {
    var body := BodyFor(ps, plan, st, device, post);
    var bs := PacketPlan(body).bindings;
    forall k | 0 <= k < |bs| ensures bs[k] == plan.bindings[k] {
      assert Fits(planner, st, ps[k], plan.bindings[k]);
    }
    assert bs == plan.bindings;
  }

  lemma {:induction false} BuiltBindingsValid(
    planner: Planner, ps: seq<Profile>, bs: seq<BindingPlan>, st: LiveState)
    requires Bound(planner, st, ps, bs)
    ensures BindingsValid(PacketBindings(ps, bs), ps) <==> IdsInRange(bs, None)
  {
    var xs := PacketBindings(ps, bs);
    BoundSlots(planner, st, ps, bs);
    forall k | 0 <= k < |xs|
      ensures BindingValid(xs[k], ps[k]) <==> InRange(PROXY, bs[k].proxyId) && InRange(POLICY, bs[k].policyId)
    {
    }
    if BindingsValid(xs, ps) {
      forall k | 0 <= k < |bs| ensures InRange(PROXY, bs[k].proxyId) && InRange(POLICY, bs[k].policyId) {
        assert BindingValid(xs[k], ps[k]);
      }
    }
  }

  lemma {:induction false} BuiltAssignmentValid(
    ps: seq<Profile>, plan: LivePlan, st: LiveState, device: Option<string>)
    requires AssignmentFits(ps, plan, st, device) && (device.Some? ==> Mac.NormalizeMac(device.value) == device)
    ensures var a := AssignmentPayload(plan, st, device);
            AssignmentValid(a, plan.bindings) <==> IdsInRange([], a.previous)
  {
  }

  lemma {:induction false} BuiltCommandsValid(
    planner: Planner, ps: seq<Profile>, plan: LivePlan, st: LiveState, device: Option<string>)
    requires PlanFits(planner, ps, plan, st, device) && ExpectedPostState(ps, plan, st, device).Ok?
    ensures CommandsValid(BodyFor(ps, plan, st, device, ExpectedPostState(ps, plan, st, device).value), ps)
  {
    PacketPlanRecovers(planner, ps, plan, st, device, ExpectedPostState(ps, plan, st, device).value);
    NoCommandsNoChange(planner, ps, plan, st, device);
  }

  /** A packet built from a fitting plan passes the independent validator exactly when every identifier it names is in
      the supported range. */
  lemma {:induction false} BuiltPacketIsValid(
    planner: Planner, ps: seq<Profile>, plan: LivePlan, st: LiveState, device: Option<string>)
    requires PlanFits(planner, ps, plan, st, device) && (device.Some? ==> Mac.NormalizeMac(device.value) == device)
    ensures ExpectedPostState(ps, plan, st, device).Ok?
    ensures var body := BodyFor(ps, plan, st, device, ExpectedPostState(ps, plan, st, device).value);
            Valid(Packet(body, body), ps) <==>
              IdsInRange(plan.bindings, AssignmentPayload(plan, st, device).previous)
  {
    FittingPlanHasPostState(planner, ps, plan, st, device);
    PacketPlanRecovers(planner, ps, plan, st, device, ExpectedPostState(ps, plan, st, device).value);
    BuiltBindingsValid(planner, ps, plan.bindings, st);
    BuiltAssignmentValid(ps, plan, st, device);
    BuiltCommandsValid(planner, ps, plan, st, device);
  }

  lemma {:induction false} DeviceIsNormal(mac: Option<string>)
    ensures DeviceOf(mac).Some? ==> Mac.NormalizeMac(DeviceOf(mac).value) == DeviceOf(mac)
    ensures DeviceOf(DeviceOf(mac)) == DeviceOf(mac)
  {
    if DeviceOf(mac).Some? {
      Mac.NormalizeMacIsIdempotent(mac.value);
    }
  }

  /** A packet comes out exactly when the contract is supported, the semantic planner finds a plan, and every
      identifier involved is in range; then it carries that plan, its commands and its expected state. */
  lemma {:induction false} PacketExists(
    ps: seq<Profile>, contract: string, st: LiveState, mac: Option<string>, slot: Option<int>, allowMove: bool)
    requires DistinctPorts(ps)
    ensures var device := DeviceOf(mac);
            var planned := LivePlanFor(BySemantics, ps, st, device, slot, allowMove);
            PacketFor(ps, contract, st, mac, slot, allowMove).Ok? <==>
              && contract == CONTRACT && (mac.Some? ==> device.Some?) && planned.Ok?
              && IdsInRange(planned.value.bindings, AssignmentPayload(planned.value, st, device).previous)
  {
    var device := DeviceOf(mac);
    var planned := LivePlanFor(BySemantics, ps, st, device, slot, allowMove);
    DeviceIsNormal(mac);
    if planned.Ok? {
      LivePlanFits(BySemantics, ps, st, device, slot, allowMove);
      BuiltPacketIsValid(BySemantics, ps, planned.value, st, device);
    }
  }

  const SIXTEENTH := Profile(1, "primary", "127.0.0.1", 1082, true, SOCKS5, NO_AUTH)
  const SIXTEENTH_STATE := LiveState(
    map["Proxy16" := Proxy(ConnectionName(SIXTEENTH).text, SOCKS5, "127.0.0.1", 1082, true, false)],
    map["Policy0" := NativePolicy(PolicyName(SIXTEENTH).text, ["Proxy16"])], map[], [])

  lemma {:induction false} OneCandidate(id: string, used: set<string>, prefix: string)
    ensures BindObject(BySemantics, {id}, {id}, used, prefix) == Ok((id, Reuse))
  {
    SingletonPick({id}, id);
  }

  lemma {:induction false} SixteenthIsPlanned()
    ensures LivePlanFor(BySemantics, [SIXTEENTH], SIXTEENTH_STATE, None, None, false) ==
            Ok(LivePlan([BindingPlan(1, 1082, "Proxy16", "Policy0", Reuse, Reuse)], false, None, NoAssignment))
  {
    var p, st := SIXTEENTH, SIXTEENTH_STATE;
    assert OwnedProxies(st, p) == {"Proxy16"} && MatchingProxies(st, p) == {"Proxy16"};
    assert OwnedPolicies(st, p) == {"Policy0"} && MatchingPolicies(st, "Proxy16") == {"Policy0"};
    OneCandidate("Proxy16", st.proxies.Keys, PROXY);
    OneCandidate("Policy0", st.policies.Keys, POLICY);
    var b := BindingPlan(1, 1082, "Proxy16", "Policy0", Reuse, Reuse);
    assert BindProfile(BySemantics, st, p, st.proxies.Keys, st.policies.Keys) == Ok(b);
    assert [p][1..] == [] && [b] + [] == [b];
    assert BindAll(BySemantics, st, [p], st.proxies.Keys, st.policies.Keys) == Ok([b]);
  }

  lemma {:induction false} SixteenthIsOutOfRange()
    ensures !InRange(PROXY, "Proxy16")
  {
    NativeIdNumber(PROXY, 16);
    assert Decimal(16) == "16" by {
      assert Decimal(1) == "1";
    }
    assert NativeId(PROXY, 16) == "Proxy16";
  }

  /** An instance: the plan reuses the router's own `Proxy16`, and no packet comes out. */
  lemma {:induction false} HighIdentifierGetsNoPacket()
    ensures LivePlanFor(BySemantics, [SIXTEENTH], SIXTEENTH_STATE, None, None, false).Ok?
    ensures PacketFor([SIXTEENTH], CONTRACT, SIXTEENTH_STATE, None, None, false) == Err(Refused)
  {
    SixteenthIsPlanned();
    SixteenthIsOutOfRange();
    PacketExists([SIXTEENTH], CONTRACT, SIXTEENTH_STATE, None, None, false);
  }

  // ---- Verification against an observed state ----

  datatype Phase = BeforeApply | Running | Saved

  predicate Rebound(observed: seq<BindingPlan>, expected: seq<PacketBinding>) {
    forall k :: 0 <= k < |observed| && k < |expected| ==>
      && observed[k].proxyId == expected[k].proxyId && observed[k].policyId == expected[k].policyId
      && observed[k].proxyAction.Reuse? && observed[k].policyAction.Reuse?
  }

  /** Planning again on the observed state finds the packet's own objects and assignment. */
  ghost predicate SemanticPost(body: Body, ps: seq<Profile>, st: LiveState) {
    var again := LivePlanFor(BySemantics, ps, st, body.assignment.mac, body.assignment.slot, false);
    && again.Ok? && Rebound(again.value.bindings, body.bindings)
    && (!body.assignment.action.NoAssignment? ==> again.value.assignment.KeepAssignment?)
  }

  ghost predicate Verified(packet: Packet, ps: seq<Profile>, st: LiveState, phase: Phase) {
    var body := packet.body;
    && Valid(packet, ps) && GuardFingerprint(st) == body.guard
    && if phase.BeforeApply? then Fingerprint(st) == body.pre
       else
         && Fingerprint(st) == body.post
         && Applied(BySemantics, ps, PacketPlan(body), st, body.assignment.mac)
         && SemanticPost(body, ps, st)
  }

  lemma {:induction false} ReusedShape(bs: seq<BindingPlan>)
    ensures forall k :: 0 <= k < |bs| ==> Reused(bs)[k] == bs[k].(proxyAction := Reuse, policyAction := Reuse)
  {
    if bs != [] {
      ReusedShape(bs[1..]);
    }
  }

  lemma {:induction false} ExpectedStatePasses(
    ps: seq<Profile>, plan: LivePlan, st: LiveState, device: Option<string>, post: LiveState, observed: LiveState)
    requires PlanFits(BySemantics, ps, plan, st, device) && AsExpected(ps, plan, st, device, observed)
    requires device.Some? ==> Mac.NormalizeMac(device.value) == device
    ensures var body := BodyFor(ps, plan, st, device, post);
            && Applied(BySemantics, ps, PacketPlan(body), observed, body.assignment.mac)
            && SemanticPost(body, ps, observed)
  {
    PacketPlanRecovers(BySemantics, ps, plan, st, device, post);
    ExpectedStateIsApplied(BySemantics, ps, plan, st, device, observed);
    ReplanningReuses(BySemantics, ps, plan, st, device, observed);
    ReusedShape(plan.bindings);
  }

  /** For a built packet the remaining checks add nothing to the fingerprints: an observed state verifies before the
      change exactly when it is the pre-state, and after it exactly when it is the expected post-state, both up to
      the order of the guard lines. */
  lemma {:induction false} VerificationIsExact(
    ps: seq<Profile>, contract: string, st: LiveState, mac: Option<string>, slot: Option<int>, allowMove: bool,
    observed: LiveState, phase: Phase)
    requires DistinctPorts(ps) && PacketFor(ps, contract, st, mac, slot, allowMove).Ok?
    ensures var packet := PacketFor(ps, contract, st, mac, slot, allowMove).value;
            Verified(packet, ps, observed, phase) <==>
              Fingerprint(observed) == if phase.BeforeApply? then packet.body.pre else packet.body.post
  {
    var packet := PacketFor(ps, contract, st, mac, slot, allowMove).value;
    var device := DeviceOf(mac);
    var plan := LivePlanFor(BySemantics, ps, st, device, slot, allowMove).value;
    DeviceIsNormal(mac);
    LivePlanFits(BySemantics, ps, st, device, slot, allowMove);
    var post := ExpectedPostState(ps, plan, st, device).value;
    if !phase.BeforeApply? && Fingerprint(observed) == packet.body.post {
      ExpectedStatePasses(ps, plan, st, device, post, observed);
    }
  }

  /** Carrying out a packet: its commands take the pre-state to a state that verifies exactly when every created
      profile is enabled, and its rollback commands take that state back to one that verifies as the pre-state. A
      packet without commands expects no change. */
  lemma {:induction false} PacketRoundTrip(
    ps: seq<Profile>, contract: string, st: LiveState, mac: Option<string>, slot: Option<int>, allowMove: bool)
    requires DistinctPorts(ps) && PacketFor(ps, contract, st, mac, slot, allowMove).Ok?
    ensures var packet := PacketFor(ps, contract, st, mac, slot, allowMove).value;
            var reached := ExecAll(st, packet.body.commands);
            && (Verified(packet, ps, reached, Running) <==> CreatedAreEnabled(ps, PacketPlan(packet.body).bindings))
            && ExecAll(reached, packet.body.rollbackCommands) == st
            && Verified(packet, ps, st, BeforeApply)
            && (packet.body.commands == [] <==> packet.body.pre == packet.body.post)
  {
    var packet := PacketFor(ps, contract, st, mac, slot, allowMove).value;
    var device := DeviceOf(mac);
    var plan := LivePlanFor(BySemantics, ps, st, device, slot, allowMove).value;
    DeviceIsNormal(mac);
    LivePlanFits(BySemantics, ps, st, device, slot, allowMove);
    PacketPlanRecovers(BySemantics, ps, plan, st, device, ExpectedPostState(ps, plan, st, device).value);
    CommandsReachExpected(BySemantics, ps, plan, st, device);
    NoCommandsNoChange(BySemantics, ps, plan, st, device);
    var reached := ExecAll(st, packet.body.commands);
    CommandsKeepGuard(st, packet.body.commands);
    VerificationIsExact(ps, contract, st, mac, slot, allowMove, st, BeforeApply);
    VerificationIsExact(ps, contract, st, mac, slot, allowMove, reached, Running);
  }

  lemma {:induction false} CommandsKeepGuard(st: LiveState, cs: seq<Command>)
    ensures ExecAll(st, cs).guard == st.guard
    decreases cs
  {
    if cs != [] {
      CommandsKeepGuard(Exec(st, cs[0]), cs[1..]);
    }
  }
}
