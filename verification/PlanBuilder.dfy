/** What a change plan is, and the loop that builds one (scripts/routerkit_netcraze_plan.py:1273-1691). */
module PlanBuilder {
  import opened Wrappers
  import opened PlanModel
  import opened Ordering
  import opened Sets

  // ---- Semantic equivalence ----

  predicate ConnectionEquivalent(c: Connection, p: Profile) {
    c.complete && c.protocol == p.protocol && c.host == p.host && c.port == p.port && c.authMode == p.authMode
    && c.enabled == p.enabled
  }

  predicate PolicyEquivalent(q: Policy, connectionRef: string) {
    q.complete && q.connectionRef == connectionRef && q.mode == PROXY_ONLY && !q.isDefault && !q.unrelatedRules
  }

  ghost function ExactConnections(s: Snapshot, p: Profile): set<Connection> {
    set c | c in s.connections && ConnectionEquivalent(c, p)
  }

  ghost function NamedConnections(s: Snapshot, p: Profile): set<Connection> {
    set c | c in s.connections && c.name.folded == ConnectionName(p).folded
  }

  ghost function ExactPolicies(s: Snapshot, ref: Reference): set<Policy> {
    if ref.kind.ExistingConnection? then set q | q in s.policies && PolicyEquivalent(q, ref.value.GetOr("")) else {}
  }

  ghost function NamedPolicies(s: Snapshot, p: Profile): set<Policy> {
    set q | q in s.policies && q.name.folded == PolicyName(p).folded
  }

  predicate IdTaken(s: Snapshot, id: string) {
    (exists c :: c in s.connections && c.id == id) || (exists q :: q in s.policies && q.id == id)
  }

  // ---- What happens to one object ----

  /** Keep an existing object, create a new one, or refuse and block the plan. */
  datatype Choice<T> =
    | Reuse(existing: T)
    | Create
    | Refuse(proposal: Proposal, observed: Option<T>, reason: Reason)

  ghost function ConnectionChoice(s: Snapshot, p: Profile): Choice<Connection> {
    var exact := ExactConnections(s, p);
    var named := NamedConnections(s, p);
    if |exact| > 1 then Refuse(SemanticMatch(AmbiguousMatch), None, MultipleConnections)
    else if exact != {} then Reuse(Pick(exact))
    else if named != {} then
      Refuse(SemanticMatch(Mismatch), Some(Pick(named)),
             if Pick(named).complete then DifferentConnection else IncompleteConnection)
    else if IdTaken(s, SimulatedConnectionId(p.slot)) then Refuse(NoProposal, None, ConnectionIdCollision)
    else Create
  }

  function ExistingReference(kind: ReferenceKind, id: string): Reference {
    Reference(kind, Some(id), None)
  }

  function PlannedReference(kind: ReferenceKind, slot: int): Reference {
    Reference(kind, None, Some(slot))
  }

  function ConnectionReference(choice: Choice<Connection>, p: Profile): Option<Reference> {
    match choice
    case Reuse(c) => Some(ExistingReference(ExistingConnection, c.id))
    case Create => Some(PlannedReference(PlannedConnection, p.slot))
    case Refuse(_, _, _) => None
  }

  ghost function PolicyChoice(s: Snapshot, p: Profile, ref: Option<Reference>): Choice<Policy> {
    if ref.None? then Refuse(NoProposal, None, NoConnectionDependency)
    else
      var exact := ExactPolicies(s, ref.value);
      var named := NamedPolicies(s, p);
      if |exact| > 1 then Refuse(NoProposal, None, MultiplePolicies)
      else if exact != {} then Reuse(Pick(exact))
      else if named != {} then
        Refuse(SemanticMatch(Mismatch), Some(Pick(named)), PolicyMismatch(s, Pick(named)))
      else if IdTaken(s, SimulatedPolicyId(p.slot)) then Refuse(NoProposal, None, PolicyIdCollision)
      else Create
  }

  function PolicyMismatch(s: Snapshot, q: Policy): Reason {
    if Some(q.id) == s.defaultRef || q.isDefault then DefaultImmutable
    else if !q.complete then IncompletePolicy
    else DifferentPolicy
  }

  function PolicyReference(choice: Choice<Policy>, p: Profile): Option<Reference> {
    match choice
    case Reuse(q) => Some(ExistingReference(ExistingPolicy, q.id))
    case Create => Some(PlannedReference(PlannedPolicy, p.slot))
    case Refuse(_, _, _) => None
  }

  datatype AssignmentChoice = Assign | Keep | RefuseAssignment(observed: Option<string>, reason: Reason)

  /** The assignment recorded for a device, if any. */
  function FindAssignment(xs: seq<Assignment>, mac: string): Option<Assignment> {
    if xs == [] then None else if xs[0].mac == mac then Some(xs[0]) else FindAssignment(xs[1..], mac)
  }

  function ChooseAssignment(s: Snapshot, d: Device, ref: Option<Reference>): AssignmentChoice {
    var existing := FindAssignment(s.assignments, d.mac);
    if ref.None? then RefuseAssignment(None, NoPolicyDependency)
    else if existing.None? then Assign
    else if ref.value.kind.ExistingPolicy? && Some(existing.value.policyRef) == ref.value.value then Keep
    else
      RefuseAssignment(Some(d.mac),
                       if Some(existing.value.policyRef) == s.defaultRef then AssignedToDefault
                       else MoveOutsideContract)
  }

  // ---- Rendering choices as actions ----

  function ProfileEndpoint(p: Profile): Option<Endpoint> {
    Some(Endpoint(p.host, p.port))
  }

  function ConnectionAction(s: Snapshot, p: Profile, choice: Choice<Connection>): PlanAction {
    var id, target, slot := ConnectionStep(p.slot), ConnectionName(p), Some(p.slot);
    match choice
    case Reuse(c) =>
      PlanAction(id, ReuseConnection, ConnectionObject, target, slot, ProfileEndpoint(p), Some(c.id), Some(c.name),
                 SemanticMatch(Exact), [], None, false, PlanReady, None)
    case Create =>
      PlanAction(id, CreateConnection, ConnectionObject, target, slot, ProfileEndpoint(p), None, None,
                 ProposedConnection(p.protocol, p.host, p.port, p.authMode, p.enabled), [], Some(!s.stale), true,
                 HardwarePending, None)
    case Refuse(proposal, observed, reason) =>
      PlanAction(id, Conflict, ConnectionObject, target, slot, ProfileEndpoint(p),
                 if observed.Some? then Some(observed.value.id) else None,
                 if observed.Some? then Some(observed.value.name) else None,
                 proposal, [], Some(!s.stale), true, Blocked, Some(reason))
  }

  function Dependency(ref: Option<Reference>): seq<Reference> {
    if ref.Some? then [ref.value] else []
  }

  function PolicyAction(s: Snapshot, p: Profile, ref: Option<Reference>, choice: Choice<Policy>): PlanAction {
    var id, target, slot := PolicyStep(p.slot), PolicyName(p), Some(p.slot);
    match choice
    case Reuse(q) =>
      PlanAction(id, ReusePolicy, PolicyObject, target, slot, ProfileEndpoint(p), Some(q.id), Some(q.name),
                 SemanticMatch(Exact), Dependency(ref), None, false, PlanReady, None)
    case Create =>
      PlanAction(id, CreatePolicy, PolicyObject, target, slot, ProfileEndpoint(p), None, None,
                 ProposedPolicy(PROXY_ONLY, false), Dependency(ref), Some(!s.stale), true, HardwarePending, None)
    case Refuse(proposal, observed, reason) =>
      PlanAction(id, if ref.None? then BlockedStep else Conflict, PolicyObject, target, slot, ProfileEndpoint(p),
                 if observed.Some? then Some(observed.value.id) else None,
                 if observed.Some? then Some(observed.value.name) else None,
                 proposal, Dependency(ref), Some(!s.stale), true, Blocked, Some(reason))
  }

  const SELECTED_DEVICE := Name("selected-device", "selected-device")

  function AssignmentAction(
    s: Snapshot, p: Profile, d: Device, ref: Option<Reference>, choice: AssignmentChoice): PlanAction
  {
    var id, target, slot := AssignmentStep, SELECTED_DEVICE, Some(p.slot);
    match choice
    case Keep =>
      PlanAction(id, ReuseAssignment, AssignmentObject, target, slot, ProfileEndpoint(p), Some(d.mac), None,
                 NoProposal, Dependency(ref), None, false, PlanReady, None)
    case Assign =>
      PlanAction(id, AssignDevice, AssignmentObject, target, slot, ProfileEndpoint(p), None, None,
                 NoProposal, Dependency(ref), Some(!s.stale), true, HardwarePending, None)
    case RefuseAssignment(observed, reason) =>
      PlanAction(id, BlockedStep, AssignmentObject, target, slot, ProfileEndpoint(p), observed, None,
                 NoProposal, Dependency(ref), Some(!s.stale), true, Blocked, Some(reason))
  }

  function VerifyAction(id: ActionId, objectType: ObjectType, target: Name): PlanAction {
    PlanAction(id, Verify, objectType, target, None, None, None, None, NoProposal, [], None, false, HardwarePending,
               None)
  }

  const ALL_CONNECTIONS := Name("all-planned-connections", "all-planned-connections")
  const ALL_POLICIES := Name("all-planned-policies", "all-planned-policies")
  const OBSERVED_DEFAULT := Name("observed-default-policy", "observed-default-policy")

  function VerificationActions(s: Snapshot, d: Option<Device>, notTargeted: bool): seq<PlanAction> {
    [VerifyAction(VerifyConnections, ConnectionObject, ALL_CONNECTIONS),
     VerifyAction(VerifyPolicies, PolicyObject, ALL_POLICIES)]
    + (if d.Some? then [VerifyAction(VerifyAssignment, AssignmentObject, SELECTED_DEVICE)] else [])
    + [VerifyAction(VerifyDefault, DefaultPolicyObject, OBSERVED_DEFAULT).(
       observedId := s.defaultRef,
       readiness := if notTargeted then HardwarePending else Blocked,
       reason := if notTargeted then None else Some(DefaultNotProven))]
  }

  // ---- Default-policy proof ----

  predicate Mutating(op: Operation) {
    op == CreateConnection || op == CreatePolicy || op == AssignDevice
  }

  /** No mutation names, observes or depends on the default policy or its connection. */
  predicate ActionAvoids(a: PlanAction, q: Policy, c: Connection) {
    Mutating(a.operation) ==>
      && a.observedId != Some(q.id) && a.observedId != Some(c.id)
      && !(a.objectType.PolicyObject? && a.target.folded == q.name.folded)
      && !(a.objectType.ConnectionObject? && a.target.folded == c.name.folded)
      && forall ref :: ref in a.dependencies ==> ref.value != Some(q.id) && ref.value != Some(c.id)
  }

  predicate AllAvoid(actions: seq<PlanAction>, q: Policy, c: Connection) {
    actions == [] || (ActionAvoids(actions[0], q, c) && AllAvoid(actions[1..], q, c))
  }

  predicate NotTargeted(s: Snapshot, actions: seq<PlanAction>)
    requires Consistent(s)
  {
    && DefaultProven(s)
    && s.defaultRef.Some?
    && var q := FindPolicy(s.policies, s.defaultRef.value).value;
       var c := FindConnection(s.connections, q.connectionRef).value;
       AllAvoid(actions, q, c)
  }

  // ---- Rollback ----

  function RollbackFor(a: PlanAction): Option<RollbackAction> {
    match a.operation
    case CreateConnection => Some(RollbackAction(a.id, RemoveConnection, a.objectType, a.target))
    case CreatePolicy => Some(RollbackAction(a.id, RemovePolicy, a.objectType, a.target))
    case AssignDevice => Some(RollbackAction(a.id, RemoveAssignment, a.objectType, a.target))
    case _ => None
  }

  /** The rollback of every mutation, last mutation first. */
  function RollbackOf(actions: seq<PlanAction>): seq<RollbackAction> {
    if actions == [] then []
    else
      var last := RollbackFor(actions[|actions| - 1]);
      (if last.Some? then [last.value] else []) + RollbackOf(actions[..|actions| - 1])
  }

  // ---- Canonical values standing for the digests ----

  datatype CanonicalSnapshot = CanonicalSnapshot(
    state: string, stale: bool, default_: Projection, connections: seq<Connection>, policies: seq<Policy>,
    assignments: seq<Assignment>, capabilities: seq<(string, string)>)

  predicate ConnectionLeq(a: Connection, b: Connection) {
    LexLeq(a.id, b.id)
  }

  predicate PolicyLeq(a: Policy, b: Policy) {
    LexLeq(a.id, b.id)
  }

  predicate PairLeq(a: (string, string), b: (string, string)) {
    if a.0 == b.0 then LexLeq(a.1, b.1) else LexLeq(a.0, b.0)
  }

  predicate AssignmentLeq(a: Assignment, b: Assignment) {
    PairLeq((a.mac, a.policyRef), (b.mac, b.policyRef))
  }

  /** Every planner-relevant observation, in the order the digest is taken in. */
  function SemanticFingerprint(s: Snapshot): CanonicalSnapshot
    requires Consistent(s)
  {
    CanonicalSnapshot(
      s.state, s.stale, DefaultProjection(s), Sort(ConnectionLeq, s.connections), Sort(PolicyLeq, s.policies),
      Sort(AssignmentLeq, s.assignments), Sort(PairLeq, s.capabilities))
  }

  datatype LocalIdentity = LocalIdentity(
    desired: seq<Profile>, source: CanonicalSnapshot, sourceDefault: Projection, actions: seq<PlanAction>,
    rollback: seq<RollbackAction>, status: Readiness, writeReadiness: Readiness, notTargeted: bool,
    device: Option<Device>)

  datatype PublicAction = PublicAction(
    id: ActionId, operation: Operation, objectType: ObjectType, slot: Option<int>, readiness: Readiness,
    backupRequired: bool, hasReason: bool, dependencyKinds: seq<ReferenceKind>)

  datatype PublicIdentity = PublicIdentity(
    status: Readiness, writeReadiness: Readiness, slots: seq<int>, devicePresent: bool, notTargeted: bool,
    sourceDefault: Projection, counts: multiset<Operation>, actions: seq<PublicAction>)

  datatype ChangePlan = ChangePlan(
    desired: seq<Profile>, source: CanonicalSnapshot, sourceDefault: Projection, actions: seq<PlanAction>,
    rollback: seq<RollbackAction>, localIntegrity: LocalIdentity, publicFingerprint: PublicIdentity,
    status: Readiness, writeReadiness: Readiness, notTargeted: bool, device: Option<Device>)

  function Kinds(refs: seq<Reference>): seq<ReferenceKind> {
    seq(|refs|, i requires 0 <= i < |refs| => refs[i].kind)
  }

  function PublicActionOf(a: PlanAction): PublicAction {
    PublicAction(a.id, a.operation, a.objectType, a.slot, a.readiness, a.backupRequired, a.reason.Some?,
                 Kinds(a.dependencies))
  }

  function PublicIdentityOf(
    desired: seq<Profile>, sourceDefault: Projection, actions: seq<PlanAction>, status: Readiness,
    writeReadiness: Readiness, notTargeted: bool, device: Option<Device>): PublicIdentity
  {
    PublicIdentity(
      status, writeReadiness, seq(|desired|, i requires 0 <= i < |desired| => desired[i].slot), device.Some?,
      notTargeted, sourceDefault,
      multiset(seq(|actions|, i requires 0 <= i < |actions| => actions[i].operation)),
      seq(|actions|, i requires 0 <= i < |actions| => PublicActionOf(actions[i])))
  }

  function SealPlan(
    desired: seq<Profile>, source: CanonicalSnapshot, sourceDefault: Projection, actions: seq<PlanAction>,
    blocked: bool, notTargeted: bool, device: Option<Device>): ChangePlan
  {
    var status := if blocked then Blocked else HardwarePending;
    ChangePlan(
      desired, source, sourceDefault, actions, RollbackOf(actions),
      LocalIdentity(desired, source, sourceDefault, actions, RollbackOf(actions), status, Blocked, notTargeted, device),
      PublicIdentityOf(desired, sourceDefault, actions, status, Blocked, notTargeted, device),
      status, Blocked, notTargeted, device)
  }

  // ---- The whole plan ----

  ghost function ReferenceAt(s: Snapshot, p: Profile): Option<Reference> {
    ConnectionReference(ConnectionChoice(s, p), p)
  }

  ghost function PolicyChoiceFor(s: Snapshot, p: Profile): Choice<Policy> {
    PolicyChoice(s, p, ReferenceAt(s, p))
  }

  ghost function PolicyReferenceAt(s: Snapshot, p: Profile): Option<Reference> {
    PolicyReference(PolicyChoiceFor(s, p), p)
  }

  ghost function AssignmentChoiceFor(s: Snapshot, p: Profile, d: Device): AssignmentChoice {
    ChooseAssignment(s, d, PolicyReferenceAt(s, p))
  }

  ghost function ConnectionActions(s: Snapshot, ps: seq<Profile>): (r: seq<PlanAction>)
    ensures |r| == |ps|
  {
    seq(|ps|, i requires 0 <= i < |ps| => ConnectionAction(s, ps[i], ConnectionChoice(s, ps[i])))
  }

  ghost function PolicyActions(s: Snapshot, ps: seq<Profile>): (r: seq<PlanAction>)
    ensures |r| == |ps|
  {
    seq(|ps|, i requires 0 <= i < |ps| => PolicyAction(s, ps[i], ReferenceAt(s, ps[i]), PolicyChoiceFor(s, ps[i])))
  }

  ghost function AssignmentActions(s: Snapshot, ps: seq<Profile>, d: Option<Device>): seq<PlanAction>
    requires ps != []
  {
    if d.None? then []
    else [AssignmentAction(s, ps[0], d.value, PolicyReferenceAt(s, ps[0]), AssignmentChoiceFor(s, ps[0], d.value))]
  }

  /** The object actions, before the verification actions are appended. */
  ghost function ObjectActions(s: Snapshot, ps: seq<Profile>, d: Option<Device>): seq<PlanAction>
    requires ps != []
  {
    ConnectionActions(s, ps) + PolicyActions(s, ps) + AssignmentActions(s, ps, d)
  }

  /** No object had to be refused. */
  ghost predicate AllChosen(s: Snapshot, ps: seq<Profile>, d: Option<Device>)
    requires ps != []
  {
    && (forall p :: p in ps ==> !ConnectionChoice(s, p).Refuse? && !PolicyChoiceFor(s, p).Refuse?)
    && (d.Some? ==> !AssignmentChoiceFor(s, ps[0], d.value).RefuseAssignment?)
  }

  ghost predicate PlanBlocked(s: Snapshot, ps: seq<Profile>, d: Option<Device>)
    requires ps != [] && Consistent(s)
  {
    s.state != SUPPORTED || s.stale || !DefaultProven(s) || !AllChosen(s, ps, d)
    || !NotTargeted(s, ObjectActions(s, ps, d))
  }

  function BlockAll(actions: seq<PlanAction>): (r: seq<PlanAction>)
    ensures |r| == |actions|
  {
    seq(|actions|, i requires 0 <= i < |actions| => actions[i].(readiness := Blocked))
  }

  ghost function PlannedActions(s: Snapshot, ps: seq<Profile>, d: Option<Device>): seq<PlanAction>
    requires ps != [] && Consistent(s)
  {
    var actions := ObjectActions(s, ps, d) + VerificationActions(s, d, NotTargeted(s, ObjectActions(s, ps, d)));
    if PlanBlocked(s, ps, d) then BlockAll(actions) else actions
  }

  /** The plan for normalised profiles on a consistent snapshot. */
  ghost function PlanFor(s: Snapshot, ps: seq<Profile>, d: Option<Device>): ChangePlan
    requires ps != [] && Consistent(s)
  {
    SealPlan(ps, SemanticFingerprint(s), DefaultProjection(s), PlannedActions(s, ps, d), PlanBlocked(s, ps, d),
             NotTargeted(s, ObjectActions(s, ps, d)), d)
  }
}
