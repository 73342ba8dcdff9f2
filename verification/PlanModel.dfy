/** Entities of the fixture planner (scripts/routerkit_netcraze_plan.py). */
module PlanModel {
  import opened Wrappers
  import opened Text
  import opened Mac

  /** An object name together with the casefolded key every name comparison uses. */
  datatype Name = Name(text: string, folded: string)

  datatype Profile = Profile(
    slot: int, profileLabel: string, host: string, port: int, enabled: bool, protocol: string, authMode: string)

  datatype Connection = Connection(
    id: string, name: Name, protocol: string, host: string, port: int, authMode: string, enabled: bool,
    complete: bool)

  datatype Policy = Policy(
    id: string, name: Name, connectionRef: string, mode: string, isDefault: bool, complete: bool,
    unrelatedRules: bool)

  datatype Assignment = Assignment(mac: string, policyRef: string)

  datatype DefaultStatus = Known | Unknown | Ambiguous | OtherStatus(text: string)

  datatype Snapshot = Snapshot(
    snapshotId: string, state: string, stale: bool, defaultStatus: DefaultStatus, defaultRef: Option<string>,
    connections: seq<Connection>, policies: seq<Policy>, assignments: seq<Assignment>,
    capabilities: seq<(string, string)>)

  datatype Device = Device(displayName: string, mac: string)

  datatype ReferenceKind = ExistingConnection | PlannedConnection | ExistingPolicy | PlannedPolicy

  datatype Reference = Reference(kind: ReferenceKind, value: Option<string>, slot: Option<int>)

  datatype Projection = Projection(
    status: DefaultStatus, defaultRef: Option<string>, policy: Option<Policy>, connection: Option<Connection>)

  datatype Readiness = PlanReady | HardwarePending | Blocked

  datatype ActionId =
    | ConnectionStep(slot: int)
    | PolicyStep(slot: int)
    | AssignmentStep
    | VerifyConnections
    | VerifyPolicies
    | VerifyAssignment
    | VerifyDefault

  datatype Operation =
    | CreateConnection | ReuseConnection | CreatePolicy | ReusePolicy | AssignDevice | ReuseAssignment
    | Conflict | BlockedStep | Verify

  datatype ObjectType = ConnectionObject | PolicyObject | AssignmentObject | DefaultPolicyObject

  datatype Match = Exact | AmbiguousMatch | Mismatch

  datatype Proposal =
    | NoProposal
    | SemanticMatch(match_: Match)
    | ProposedConnection(protocol: string, host: string, port: int, authMode: string, enabled: bool)
    | ProposedPolicy(mode: string, isDefault: bool)

  datatype Endpoint = Endpoint(host: string, port: int)

  datatype Reason =
    | MultipleConnections | IncompleteConnection | DifferentConnection | ConnectionIdCollision
    | NoConnectionDependency | MultiplePolicies | DefaultImmutable | IncompletePolicy | DifferentPolicy
    | PolicyIdCollision | NoPolicyDependency | AssignedToDefault | MoveOutsideContract | DefaultNotProven

  datatype PlanAction = PlanAction(
    id: ActionId, operation: Operation, objectType: ObjectType, target: Name, slot: Option<int>,
    endpoint: Option<Endpoint>, observedId: Option<string>, observedName: Option<Name>, proposed: Proposal,
    dependencies: seq<Reference>, freshSnapshot: Option<bool>, backupRequired: bool, readiness: Readiness,
    reason: Option<Reason>)

  datatype RollbackOperation = RemoveConnection | RemovePolicy | RemoveAssignment

  datatype RollbackAction = RollbackAction(
    forAction: ActionId, operation: RollbackOperation, objectType: ObjectType, target: Name)

  const SUPPORTED := "supported"
  const PROXY_ONLY := "proxy_only"
  const SOCKS5 := "socks5"
  const NO_AUTH := "none"
  const MANIFEST_SCHEMA := "routerkit.local-endpoints.v1"

  // ---- Names and generated identities ----

  /** A code-owned ASCII name; its casefold is its lower-case spelling. */
  function ConnectionName(p: Profile): Name {
    Name("RouterKit-SOCKS-" + IntText(p.port), "routerkit-socks-" + IntText(p.port))
  }

  function PolicyName(p: Profile): Name {
    Name("RouterKit-Policy-" + IntText(p.port), "routerkit-policy-" + IntText(p.port))
  }

  function SimulatedConnectionId(slot: int): string {
    "simulation:connection:slot-" + IntText(slot)
  }

  function SimulatedPolicyId(slot: int): string {
    "simulation:policy:slot-" + IntText(slot)
  }

  lemma {:induction false} NamesSeparatePorts(p: Profile, q: Profile)
    ensures ConnectionName(p).folded == ConnectionName(q).folded ==> p.port == q.port
    ensures ConnectionName(p).text == ConnectionName(q).text ==> p.port == q.port
    ensures PolicyName(p).folded == PolicyName(q).folded ==> p.port == q.port
    ensures PolicyName(p).text == PolicyName(q).text ==> p.port == q.port
  {
    if ConnectionName(p).folded == ConnectionName(q).folded {
      PrefixedIntTextInjective("routerkit-socks-", p.port, q.port);
    }
    if ConnectionName(p).text == ConnectionName(q).text {
      PrefixedIntTextInjective("RouterKit-SOCKS-", p.port, q.port);
    }
    if PolicyName(p).folded == PolicyName(q).folded {
      PrefixedIntTextInjective("routerkit-policy-", p.port, q.port);
    }
    if PolicyName(p).text == PolicyName(q).text {
      PrefixedIntTextInjective("RouterKit-Policy-", p.port, q.port);
    }
  }

  lemma {:induction false} IdentitiesSeparateSlots(i: int, j: int)
    ensures SimulatedConnectionId(i) == SimulatedConnectionId(j) ==> i == j
    ensures SimulatedPolicyId(i) == SimulatedPolicyId(j) ==> i == j
  {
    if SimulatedConnectionId(i) == SimulatedConnectionId(j) {
      PrefixedIntTextInjective("simulation:connection:slot-", i, j);
    }
    if SimulatedPolicyId(i) == SimulatedPolicyId(j) {
      PrefixedIntTextInjective("simulation:policy:slot-", i, j);
    }
  }

  // ---- Manifest and device normalisation ----

  datatype Manifest = Manifest(profiles: seq<Profile>, schema: string)

  datatype PlanError = ManifestError | SnapshotError | DeviceError | IntegrityError

  function SafeLabel(slot: int): Option<string> {
    if slot == 1 then Some("primary")
    else if slot == 2 then Some("fallback-1")
    else if slot == 3 then Some("fallback-2")
    else None
  }

  /** Everything the manifest demands of one profile, apart from its neighbours. */
  predicate ValidProfile(p: Profile) {
    && 1 <= p.slot <= 3
    && SafeLabel(p.slot) == Some(p.profileLabel)
    && (p.host == "127.0.0.1" || p.host == "::1")
    && 1082 <= p.port <= 1084
    && p.protocol == SOCKS5 && p.authMode == NO_AUTH
  }

  predicate DistinctPorts(ps: seq<Profile>) {
    forall i, j :: 0 <= i < j < |ps| ==> ps[i].port != ps[j].port
  }

  function InsertBySlot(p: Profile, ps: seq<Profile>): seq<Profile> {
    if ps == [] then [p]
    else if p.slot < ps[0].slot then [p] + ps
    else [ps[0]] + InsertBySlot(p, ps[1..])
  }

  /** The stable sort by slot. */
  function SortBySlot(ps: seq<Profile>): seq<Profile> {
    if ps == [] then [] else InsertBySlot(ps[|ps| - 1], SortBySlot(ps[..|ps| - 1]))
  }

  lemma {:induction false} InsertBySlotPermutes(p: Profile, ps: seq<Profile>)
    ensures multiset(InsertBySlot(p, ps)) == multiset([p]) + multiset(ps)
  {
    if ps != [] {
      assert ps == [ps[0]] + ps[1..];
      if p.slot >= ps[0].slot {
        InsertBySlotPermutes(p, ps[1..]);
      }
    }
  }

  lemma {:induction false} SortBySlotPermutes(ps: seq<Profile>)
    ensures multiset(SortBySlot(ps)) == multiset(ps)
  {
    if ps != [] {
      var front, last := ps[..|ps| - 1], ps[|ps| - 1];
      SortBySlotPermutes(front);
      InsertBySlotPermutes(last, SortBySlot(front));
      assert ps == front + [last];
    }
  }

  function NormalizeProfiles(ps: seq<Profile>): Result<seq<Profile>, PlanError> {
    if !(1 <= |ps| <= 3) || (exists p :: p in ps && !ValidProfile(p)) || !DistinctPorts(ps) then
      Err(ManifestError)
    else
      var sorted := SortBySlot(ps);
      if forall i :: 0 <= i < |sorted| ==> sorted[i].slot == i + 1 then Ok(sorted) else Err(ManifestError)
  }

  function NormalizeManifest(m: Manifest): Result<seq<Profile>, PlanError> {
    if m.schema != MANIFEST_SCHEMA then Err(ManifestError) else NormalizeProfiles(m.profiles)
  }

  /** The shape every normalised manifest has: slots 1..n in order, distinct ports. */
  predicate Normal(ps: seq<Profile>) {
    && 1 <= |ps| <= 3
    && (forall i :: 0 <= i < |ps| ==> ps[i].slot == i + 1 && ValidProfile(ps[i]))
    && DistinctPorts(ps)
  }

  function NormalizeDevice(d: Device): Result<Device, PlanError> {
    var name := CleanText(d.displayName);
    var mac := NormalizeMac(d.mac);
    if name.None? || mac.None? then Err(DeviceError) else Ok(Device(name.value, mac.value))
  }

  predicate NormalDevice(d: Option<Device>) {
    d.Some? ==> NormalizeDevice(d.value) == Ok(d.value)
  }

  function NormalizeDeviceOption(d: Option<Device>): Result<Option<Device>, PlanError> {
    if d.None? then Ok(None)
    else
      var r := NormalizeDevice(d.value);
      if r.Err? then Err(r.error) else Ok(Some(r.value))
  }

  lemma {:induction false} NormalizedDeviceIsNormal(d: Option<Device>)
    requires NormalizeDeviceOption(d).Ok?
    ensures NormalDevice(NormalizeDeviceOption(d).value)
  {
    if d.Some? {
      CleanTextIsIdempotent(d.value.displayName);
      NormalizeMacIsIdempotent(d.value.mac);
    }
  }

  lemma {:induction false} NormalDeviceMac(d: Device)
    requires NormalDevice(Some(d))
    ensures NormalizeMac(d.mac) == Some(d.mac)
  {
  }

  lemma {:induction false} PortsOf(ps: seq<Profile>, p: Profile, q: Profile)
    requires DistinctPorts(ps) && p in ps && q in ps && p.port == q.port
    ensures p == q
  {
    var i :| 0 <= i < |ps| && ps[i] == p;
    var j :| 0 <= j < |ps| && ps[j] == q;
    assert i == j;
  }

  /** What normalisation returns is normal, holds the same profiles, and is a fixpoint. */
  lemma {:induction false} NormalizedProfilesAreNormal(ps: seq<Profile>)
    requires NormalizeProfiles(ps).Ok?
    ensures Normal(NormalizeProfiles(ps).value)
    ensures multiset(NormalizeProfiles(ps).value) == multiset(ps)
  {
    var r := NormalizeProfiles(ps).value;
    SortBySlotPermutes(ps);
    assert |r| == |ps| by { assert |multiset(r)| == |r| && |multiset(ps)| == |ps|; }
    forall i | 0 <= i < |r| ensures ValidProfile(r[i]) && r[i] in ps {
      assert r[i] in multiset(r);
    }
    forall i, j | 0 <= i < j < |r| ensures r[i].port != r[j].port {
      assert r[i].slot != r[j].slot;
      if r[i].port == r[j].port {
        PortsOf(ps, r[i], r[j]);
      }
    }
  }

  /** Slots are 1, 2, 3, ... in order. */
  predicate SlotsRise(ps: seq<Profile>) {
    ps == [] || (SlotsRise(ps[..|ps| - 1]) && ps[|ps| - 1].slot == |ps|)
  }

  lemma {:induction false} NormalSlotsRise(ps: seq<Profile>)
    requires forall i :: 0 <= i < |ps| ==> ps[i].slot == i + 1
    ensures SlotsRise(ps)
  {
    if ps != [] {
      NormalSlotsRise(ps[..|ps| - 1]);
    }
  }

  lemma {:induction false} RisingSlotsAreBounded(ps: seq<Profile>)
    requires SlotsRise(ps)
    ensures forall q :: q in ps ==> q.slot <= |ps|
  {
    if ps != [] {
      var front, last := ps[..|ps| - 1], ps[|ps| - 1];
      RisingSlotsAreBounded(front);
      assert ps == front + [last];
    }
  }

  lemma {:induction false} SortedInsert(p: Profile, ps: seq<Profile>)
    requires forall q :: q in ps ==> q.slot <= p.slot
    ensures InsertBySlot(p, ps) == ps + [p]
  {
    if ps != [] {
      assert ps == [ps[0]] + ps[1..] && ps[0] in ps;
      SortedInsert(p, ps[1..]);
    }
  }

  lemma {:induction false} RisingProfilesStay(ps: seq<Profile>)
    requires SlotsRise(ps)
    ensures SortBySlot(ps) == ps
  {
    if ps != [] {
      var front, last := ps[..|ps| - 1], ps[|ps| - 1];
      RisingProfilesStay(front);
      RisingSlotsAreBounded(front);
      SortedInsert(last, front);
      assert front + [last] == ps;
    }
  }

  lemma {:induction false} NormalProfilesAreFixed(ps: seq<Profile>)
    requires Normal(ps)
    ensures NormalizeProfiles(ps) == Ok(ps)
  {
    NormalSlotsRise(ps);
    RisingProfilesStay(ps);
  }

  /** Slots never fall from one profile to the next. */
  predicate SlotsAscend(ps: seq<Profile>) {
    forall i, j :: 0 <= i < j < |ps| ==> ps[i].slot <= ps[j].slot
  }

  lemma {:induction false} InsertAscends(p: Profile, ps: seq<Profile>)
    requires SlotsAscend(ps)
    ensures SlotsAscend(InsertBySlot(p, ps))
  {
    if ps != [] && p.slot >= ps[0].slot {
      InsertAscends(p, ps[1..]);
      InsertBySlotPermutes(p, ps[1..]);
      var rest := InsertBySlot(p, ps[1..]);
      forall q | q in rest ensures ps[0].slot <= q.slot {
        assert q in multiset(rest);
        assert q == p || q in ps[1..];
      }
    }
  }

  lemma {:induction false} SortAscends(ps: seq<Profile>)
    ensures SlotsAscend(SortBySlot(ps))
  {
    if ps != [] {
      SortAscends(ps[..|ps| - 1]);
      InsertAscends(ps[|ps| - 1], SortBySlot(ps[..|ps| - 1]));
    }
  }

  predicate SlotTaken(ps: seq<Profile>, slot: int) {
    exists p :: p in ps && p.slot == slot
  }

  /** Slots 1, 2, ... up to the number of profiles are all there. */
  predicate SlotsComplete(ps: seq<Profile>) {
    forall slot :: 1 <= slot <= |ps| ==> SlotTaken(ps, slot)
  }

  lemma {:induction false} TakenPosition(ps: seq<Profile>, slot: int) returns (i: nat)
    requires SlotTaken(ps, slot)
    ensures i < |ps| && ps[i].slot == slot
  {
    var p :| p in ps && p.slot == slot;
    i :| 0 <= i < |ps| && ps[i] == p;
  }

  lemma {:induction false} CompleteSlotsAreInOrder(ps: seq<Profile>)
    requires |ps| <= 3 && SlotsAscend(ps) && SlotsComplete(ps)
    ensures forall i :: 0 <= i < |ps| ==> ps[i].slot == i + 1
  {
    if |ps| >= 1 {
      var i := TakenPosition(ps, 1);
      if |ps| >= 2 {
        var j := TakenPosition(ps, 2);
        if |ps| == 3 {
          var k := TakenPosition(ps, 3);
        }
      }
    }
  }

  lemma {:induction false} SortedMembers(ps: seq<Profile>)
    ensures |SortBySlot(ps)| == |ps| && forall p :: p in SortBySlot(ps) <==> p in ps
  {
    SortBySlotPermutes(ps);
    assert |multiset(SortBySlot(ps))| == |SortBySlot(ps)| && |multiset(ps)| == |ps|;
    forall p ensures p in SortBySlot(ps) <==> p in ps {
      assert p in multiset(SortBySlot(ps)) <==> p in multiset(ps);
    }
  }

  /** A manifest is accepted exactly if it has one to three profiles, each valid, on different ports, with the slots
      from 1 on, in any order. */
  lemma {:induction false} NormalizationIff(ps: seq<Profile>)
    ensures NormalizeProfiles(ps).Ok? <==>
              1 <= |ps| <= 3 && (forall p :: p in ps ==> ValidProfile(p)) && DistinctPorts(ps) && SlotsComplete(ps)
  {
    var sorted := SortBySlot(ps);
    SortedMembers(ps);
    SortAscends(ps);
    if NormalizeProfiles(ps).Ok? {
      forall slot | 1 <= slot <= |ps| ensures SlotTaken(ps, slot) {
        assert sorted[slot - 1] in sorted;
      }
    }
    if SlotsComplete(ps) && |ps| <= 3 {
      forall slot | 1 <= slot <= |sorted| ensures SlotTaken(sorted, slot) {
        assert SlotTaken(ps, slot);
      }
      CompleteSlotsAreInOrder(sorted);
    }
  }

  // ---- Snapshot consistency ----

  predicate ConnectionsDistinct(cs: seq<Connection>) {
    forall i, j :: 0 <= i < j < |cs| ==> cs[i].id != cs[j].id && cs[i].name.folded != cs[j].name.folded
  }

  predicate PoliciesDistinct(qs: seq<Policy>) {
    forall i, j :: 0 <= i < j < |qs| ==> qs[i].id != qs[j].id && qs[i].name.folded != qs[j].name.folded
  }

  /** The first connection carrying an id. */
  function FindConnection(cs: seq<Connection>, id: string): Option<Connection> {
    if cs == [] then None else if cs[0].id == id then Some(cs[0]) else FindConnection(cs[1..], id)
  }

  function FindPolicy(qs: seq<Policy>, id: string): Option<Policy> {
    if qs == [] then None else if qs[0].id == id then Some(qs[0]) else FindPolicy(qs[1..], id)
  }

  predicate AssignmentsConsistent(xs: seq<Assignment>, qs: seq<Policy>) {
    && (forall i, j :: 0 <= i < j < |xs| ==> xs[i].mac != xs[j].mac)
    && (forall x :: x in xs ==> NormalizeMac(x.mac) == Some(x.mac) && FindPolicy(qs, x.policyRef).Some?)
  }

  function ObservedDefaults(qs: seq<Policy>): seq<Policy> {
    if qs == [] then []
    else (if qs[0].isDefault then [qs[0]] else []) + ObservedDefaults(qs[1..])
  }

  predicate DefaultConsistent(s: Snapshot) {
    match s.defaultStatus
    case Known =>
      var q := FindPolicy(s.policies, s.defaultRef.GetOr(""));
      && q.Some?
      && ObservedDefaults(s.policies) == [q.value]
      && q.value.complete
      && FindConnection(s.connections, q.value.connectionRef).Some?
      && FindConnection(s.connections, q.value.connectionRef).value.complete
    case Unknown => s.defaultRef.None? && ObservedDefaults(s.policies) == []
    case Ambiguous => s.defaultRef.None? && |ObservedDefaults(s.policies)| >= 2
    case OtherStatus(_) => false
  }

  /** `dict(capabilities).get(name)`: the last entry wins. */
  function Capability(capabilities: seq<(string, string)>, name: string): Option<string> {
    if capabilities == [] then None
    else
      var last := capabilities[|capabilities| - 1];
      if last.0 == name then Some(last.1) else Capability(capabilities[..|capabilities| - 1], name)
  }

  predicate CapabilitiesConsistent(status: DefaultStatus, state: string, capabilities: seq<(string, string)>) {
    && (var identity := Capability(capabilities, "default_policy_identity");
        if status.Known? then identity in [None, Some("documented"), Some("inferred")]
        else identity in [None, Some("unknown"), Some("hardware_confirmation_required")])
    && (state == SUPPORTED ==>
          && Capability(capabilities, "connection_inventory") != Some("unknown")
          && Capability(capabilities, "policy_inventory") != Some("unknown"))
    && Capability(capabilities, "write_contract") != Some("documented")
  }

  /** Every cross-object rule of `validate_snapshot_consistency`. */
  predicate Consistent(s: Snapshot) {
    && ConnectionsDistinct(s.connections)
    && PoliciesDistinct(s.policies)
    && (forall q :: q in s.policies ==> FindConnection(s.connections, q.connectionRef).Some?)
    && AssignmentsConsistent(s.assignments, s.policies)
    && DefaultConsistent(s)
    && CapabilitiesConsistent(s.defaultStatus, s.state, s.capabilities)
  }

  predicate DefaultProven(s: Snapshot) {
    s.defaultStatus.Known?
  }

  function DefaultProjection(s: Snapshot): Projection
    requires Consistent(s)
  {
    if !s.defaultStatus.Known? || s.defaultRef.None? then Projection(s.defaultStatus, s.defaultRef, None, None)
    else
      var q := FindPolicy(s.policies, s.defaultRef.value).value;
      Projection(s.defaultStatus, s.defaultRef, Some(q), FindConnection(s.connections, q.connectionRef))
  }

  // ---- Lookup facts ----

  lemma {:induction false} FoundConnection(cs: seq<Connection>, id: string)
    ensures FindConnection(cs, id).Some? ==> FindConnection(cs, id).value in cs && FindConnection(cs, id).value.id == id
    ensures FindConnection(cs, id).Some? <==> exists c :: c in cs && c.id == id
  {
    if cs != [] {
      FoundConnection(cs[1..], id);
      assert cs == [cs[0]] + cs[1..];
    }
  }

  lemma {:induction false} FoundPolicy(qs: seq<Policy>, id: string)
    ensures FindPolicy(qs, id).Some? ==> FindPolicy(qs, id).value in qs && FindPolicy(qs, id).value.id == id
    ensures FindPolicy(qs, id).Some? <==> exists q :: q in qs && q.id == id
  {
    if qs != [] {
      FoundPolicy(qs[1..], id);
      assert qs == [qs[0]] + qs[1..];
    }
  }

  lemma {:induction false} SameConnection(cs: seq<Connection>, c: Connection, d: Connection)
    requires ConnectionsDistinct(cs) && c in cs && d in cs
    requires c.id == d.id || c.name.folded == d.name.folded
    ensures c == d
  {
    var i :| 0 <= i < |cs| && cs[i] == c;
    var j :| 0 <= j < |cs| && cs[j] == d;
    assert i == j;
  }

  lemma {:induction false} SamePolicy(qs: seq<Policy>, p: Policy, q: Policy)
    requires PoliciesDistinct(qs) && p in qs && q in qs
    requires p.id == q.id || p.name.folded == q.name.folded
    ensures p == q
  {
    var i :| 0 <= i < |qs| && qs[i] == p;
    var j :| 0 <= j < |qs| && qs[j] == q;
    assert i == j;
  }

  /** In a duplicate-free inventory a lookup returns the one object with that id. */
  lemma {:induction false} LookupConnection(cs: seq<Connection>, c: Connection)
    requires ConnectionsDistinct(cs) && c in cs
    ensures FindConnection(cs, c.id) == Some(c)
  {
    FoundConnection(cs, c.id);
    SameConnection(cs, FindConnection(cs, c.id).value, c);
  }

  lemma {:induction false} LookupPolicy(qs: seq<Policy>, q: Policy)
    requires PoliciesDistinct(qs) && q in qs
    ensures FindPolicy(qs, q.id) == Some(q)
  {
    FoundPolicy(qs, q.id);
    SamePolicy(qs, FindPolicy(qs, q.id).value, q);
  }
}
