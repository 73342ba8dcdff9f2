/** The independent integrity validator, and why every built plan passes it
    (scripts/routerkit_netcraze_plan.py:986-1239). */
module PlanIntegrity {
  import opened Wrappers
  import opened PlanModel
  import opened PlanBuilder
  import opened Sets
  import opened PlanExecution

  predicate ReferenceShape(ref: Reference) {
    match ref.kind
    case ExistingConnection => ref.value.Some? && ref.value.value != "" && ref.slot.None?
    case ExistingPolicy => ref.value.Some? && ref.value.value != "" && ref.slot.None?
    case PlannedConnection => ref.value.None? && ref.slot.Some? && 1 <= ref.slot.value <= 3
    case PlannedPolicy => ref.value.None? && ref.slot.Some? && 1 <= ref.slot.value <= 3
  }

  predicate ConnectionShape(a: PlanAction, p: Profile) {
    && a.objectType.ConnectionObject? && a.target.text == ConnectionName(p).text && a.endpoint == ProfileEndpoint(p)
    && a.dependencies == []
    && match a.operation
       case CreateConnection =>
         a.proposed == ProposedConnection(p.protocol, p.host, p.port, p.authMode, p.enabled)
       case ReuseConnection => a.proposed == SemanticMatch(Exact)
       case Conflict =>
         a.proposed in [NoProposal, SemanticMatch(AmbiguousMatch), SemanticMatch(Mismatch)]
       case _ => false
  }

  predicate PolicyShape(a: PlanAction, p: Profile) {
    && a.objectType.PolicyObject? && a.target.text == PolicyName(p).text && a.endpoint == ProfileEndpoint(p)
    && (if a.dependencies == [] then a.operation.BlockedStep?
        else
          && |a.dependencies| == 1
          && (a.dependencies[0].kind.ExistingConnection?
              || (a.dependencies[0].kind.PlannedConnection? && a.dependencies[0].slot == Some(p.slot))))
    && match a.operation
       case CreatePolicy => a.proposed == ProposedPolicy(PROXY_ONLY, false)
       case ReusePolicy => a.proposed == SemanticMatch(Exact)
       case BlockedStep => a.proposed == NoProposal
       case Conflict =>
         a.proposed in [NoProposal, SemanticMatch(AmbiguousMatch), SemanticMatch(Mismatch)]
       case _ => false
  }

  predicate AssignmentShape(a: PlanAction, primary: Profile, d: Option<Device>) {
    && d.Some? && a.objectType.AssignmentObject? && a.target.text == SELECTED_DEVICE.text
    && a.slot == Some(primary.slot) && a.endpoint == ProfileEndpoint(primary) && a.proposed == NoProposal
    && (a.operation.AssignDevice? || a.operation.ReuseAssignment? || a.operation.BlockedStep?)
    && (if a.dependencies == [] then a.operation.BlockedStep?
        else
          && |a.dependencies| == 1
          && (a.dependencies[0].kind.ExistingPolicy?
              || (a.dependencies[0].kind.PlannedPolicy? && a.dependencies[0].slot == Some(primary.slot))))
    && (a.operation.ReuseAssignment? ==> a.observedId == Some(d.value.mac))
  }

  predicate VerificationShape(a: PlanAction, objectType: ObjectType) {
    a.operation.Verify? && a.objectType == objectType && a.slot.None? && a.endpoint.None? && a.dependencies == []
    && a.proposed == NoProposal
  }

  /** Everything demanded of one action on its own. */
  predicate ActionShape(ps: seq<Profile>, d: Option<Device>, a: PlanAction)
    requires ps != []
  {
    && (forall ref :: ref in a.dependencies ==> ReferenceShape(ref))
    && match a.id
       case ConnectionStep(_) => ActionProfile(ps, a).Some? && ConnectionShape(a, ActionProfile(ps, a).value)
       case PolicyStep(_) => ActionProfile(ps, a).Some? && PolicyShape(a, ActionProfile(ps, a).value)
       case AssignmentStep => AssignmentShape(a, ps[0], d)
       case VerifyConnections => VerificationShape(a, ConnectionObject)
       case VerifyPolicies => VerificationShape(a, PolicyObject)
       case VerifyAssignment => VerificationShape(a, AssignmentObject)
       case VerifyDefault => VerificationShape(a, DefaultPolicyObject)
  }

  /** The id every position of a plan must carry. */
  function ExpectedId(ps: seq<Profile>, d: Option<Device>, k: nat): Option<ActionId> {
    var n := |ps|;
    var m := 2 * n + (if d.Some? then 1 else 0);
    if k < n then Some(ConnectionStep(ps[k].slot))
    else if k < 2 * n then Some(PolicyStep(ps[k - n].slot))
    else if k < m then Some(AssignmentStep)
    else if k == m then Some(VerifyConnections)
    else if k == m + 1 then Some(VerifyPolicies)
    else if k == m + 2 then Some(if d.Some? then VerifyAssignment else VerifyDefault)
    else if k == m + 3 && d.Some? then Some(VerifyDefault)
    else None
  }

  function ExpectedCount(ps: seq<Profile>, d: Option<Device>): nat {
    2 * |ps| + (if d.Some? then 5 else 3)
  }

  predicate DefaultActionShape(plan: ChangePlan)
    requires plan.actions != []
  {
    var last := plan.actions[|plan.actions| - 1];
    && last.id.VerifyDefault? && last.observedId == plan.sourceDefault.defaultRef
    && (if plan.notTargeted then last.reason.None? else last.readiness.Blocked? && last.reason.Some?)
  }

  predicate ReadinessCoherent(plan: ChangePlan) {
    if plan.status.Blocked? then forall a :: a in plan.actions ==> a.readiness.Blocked?
    else plan.notTargeted && forall a :: a in plan.actions ==> !a.readiness.Blocked?
  }

  /** Every clause of `validate_change_plan_integrity`. */
  predicate Integrity(plan: ChangePlan) {
    && plan.writeReadiness.Blocked? && (plan.status.HardwarePending? || plan.status.Blocked?)
    && NormalizeProfiles(plan.desired) == Ok(plan.desired) && plan.desired != []
    && NormalizeDeviceOption(plan.device) == Ok(plan.device)
    && |plan.actions| == ExpectedCount(plan.desired, plan.device)
    && (forall k :: 0 <= k < |plan.actions| ==> Some(plan.actions[k].id) == ExpectedId(plan.desired, plan.device, k))
    && (forall a :: a in plan.actions ==> ActionShape(plan.desired, plan.device, a))
    && DefaultActionShape(plan)
    && ReadinessCoherent(plan)
    && plan.rollback == RollbackOf(plan.actions)
    && plan.localIntegrity == LocalIdentity(
         plan.desired, plan.source, plan.sourceDefault, plan.actions, plan.rollback, plan.status, plan.writeReadiness,
         plan.notTargeted, plan.device)
    && plan.publicFingerprint == PublicIdentityOf(
         plan.desired, plan.sourceDefault, plan.actions, plan.status, plan.writeReadiness, plan.notTargeted,
         plan.device)
  }

  lemma {:induction false} StatusFollows(x: ChangePlan, y: ChangePlan)
    requires ReadinessCoherent(x) && ReadinessCoherent(y) && x.actions == y.actions && x.actions != []
    requires (x.status.HardwarePending? || x.status.Blocked?) && (y.status.HardwarePending? || y.status.Blocked?)
    ensures x.status == y.status
  {
    assert x.actions[0] in x.actions;
  }

  lemma {:induction false} ProofFollows(x: ChangePlan, y: ChangePlan)
    requires x.actions == y.actions && x.actions != [] && DefaultActionShape(x) && DefaultActionShape(y)
    ensures x.notTargeted == y.notTargeted
  {
  }

  lemma {:induction false} IntegrityFacts(x: ChangePlan)
    requires Integrity(x)
    ensures x.writeReadiness.Blocked? && (x.status.HardwarePending? || x.status.Blocked?) && x.actions != []
    ensures DefaultActionShape(x) && ReadinessCoherent(x) && x.rollback == RollbackOf(x.actions)
    ensures x.localIntegrity == LocalIdentity(
              x.desired, x.source, x.sourceDefault, x.actions, x.rollback, x.status, x.writeReadiness, x.notTargeted,
              x.device)
    ensures x.publicFingerprint == PublicIdentityOf(
              x.desired, x.sourceDefault, x.actions, x.status, x.writeReadiness, x.notTargeted, x.device)
  {
  }

  /** A plan that passes is determined by what it is for, what it was built on and its actions: rollback, status, proof
      of the default policy, and both fingerprints follow, so none of them can be altered on its own. */
  lemma {:induction false} IntegrityDeterminesPlan(x: ChangePlan, y: ChangePlan)
    requires Integrity(x) && Integrity(y)
    requires x.desired == y.desired && x.device == y.device && x.actions == y.actions
    requires x.source == y.source && x.sourceDefault == y.sourceDefault
    ensures x == y
  {
    IntegrityFacts(x);
    IntegrityFacts(y);
    StatusFollows(x, y);
    ProofFollows(x, y);
  }

  // ---- What every built plan satisfies ----

  predicate NamedReference(ref: Option<Reference>) {
    ref.Some? && (ref.value.kind.ExistingConnection? || ref.value.kind.ExistingPolicy?) ==> ref.value.value != Some("")
  }

  /** No reused object that another action depends on has an empty id. */
  ghost predicate NamedReferences(s: Snapshot, ps: seq<Profile>, d: Option<Device>)
    requires ps != []
  {
    (forall p :: p in ps ==> NamedReference(ReferenceAt(s, p)))
    && (d.Some? ==> NamedReference(PolicyReferenceAt(s, ps[0])))
  }

  lemma {:induction false} ConnectionActionShape(s: Snapshot, ps: seq<Profile>, d: Option<Device>, p: Profile)
    requires ps != [] && ProfileBySlot(ps, p.slot) == Some(p)
    ensures ActionShape(ps, d, ConnectionAction(s, p, ConnectionChoice(s, p)))
  {
  }

  lemma {:induction false} OneDependency(a: PlanAction, ref: Option<Reference>)
    requires a.dependencies == Dependency(ref)
    requires ref.Some? ==> if ref.value.kind.ExistingConnection? || ref.value.kind.ExistingPolicy?
                           then ref.value.value.Some? && ref.value.slot.None?
                           else ref.value.value.None? && ref.value.slot.Some? && 1 <= ref.value.slot.value <= 3
    ensures (forall r :: r in a.dependencies ==> ReferenceShape(r)) <==> NamedReference(ref)
  {
    if ref.Some? {
      assert ref.value in a.dependencies;
    }
  }

  lemma {:induction false} PolicyActionShape(s: Snapshot, ps: seq<Profile>, d: Option<Device>, p: Profile)
    requires ps != [] && ProfileBySlot(ps, p.slot) == Some(p) && 1 <= p.slot <= 3
    ensures ActionShape(ps, d, PolicyAction(s, p, ReferenceAt(s, p), PolicyChoiceFor(s, p)))
            <==> NamedReference(ReferenceAt(s, p))
  {
    var a := PolicyAction(s, p, ReferenceAt(s, p), PolicyChoiceFor(s, p));
    OneDependency(a, ReferenceAt(s, p));
  }

  lemma {:induction false} AssignmentActionShape(s: Snapshot, ps: seq<Profile>, d: Device)
    requires ps != [] && 1 <= ps[0].slot <= 3
    ensures ActionShape(ps, Some(d), AssignmentActions(s, ps, Some(d))[0]) <==>
            NamedReference(PolicyReferenceAt(s, ps[0]))
  {
    var a := AssignmentActions(s, ps, Some(d))[0];
    OneDependency(a, PolicyReferenceAt(s, ps[0]));
  }

  lemma {:induction false} VerificationActionShape(
    s: Snapshot, ps: seq<Profile>, d: Option<Device>, proven: bool, k: nat)
    requires ps != [] && k < |VerificationActions(s, d, proven)|
    ensures ActionShape(ps, d, VerificationActions(s, d, proven)[k])
  {
  }

  lemma {:induction false} ShapeIgnoresReadiness(ps: seq<Profile>, d: Option<Device>, a: PlanAction)
    requires ps != []
    ensures ActionShape(ps, d, a.(readiness := Blocked)) == ActionShape(ps, d, a)
  {
  }

  lemma {:induction false} SlotOf(ps: seq<Profile>, k: nat)
    requires Normal(ps) && k < |ps|
    ensures ProfileBySlot(ps, ps[k].slot) == Some(ps[k])
  {
    forall i, j | 0 <= i < j < |ps| ensures ps[i].slot != ps[j].slot {
      assert ps[i].slot == i + 1 && ps[j].slot == j + 1;
    }
    SlotFinds(ps, k);
  }

  /** The unblocked rendering of position k. */
  ghost function Rendered(s: Snapshot, ps: seq<Profile>, d: Option<Device>, proven: bool): seq<PlanAction>
    requires ps != []
  {
    ObjectActions(s, ps, d) + VerificationActions(s, d, proven)
  }

  lemma {:induction false} RenderedIds(s: Snapshot, ps: seq<Profile>, d: Option<Device>, proven: bool, k: nat)
    requires ps != [] && k < |Rendered(s, ps, d, proven)|
    ensures |Rendered(s, ps, d, proven)| == ExpectedCount(ps, d)
    ensures Some(Rendered(s, ps, d, proven)[k].id) == ExpectedId(ps, d, k)
  {
    var o := ObjectActions(s, ps, d);
    if k < |o| {
      ObjectIds(s, ps, d, k);
    } else {
      VerificationIds(s, ps, d, proven, k - |o|);
    }
  }

  lemma {:induction false} ObjectIds(s: Snapshot, ps: seq<Profile>, d: Option<Device>, k: nat)
    requires ps != [] && k < |ObjectActions(s, ps, d)|
    ensures Some(ObjectActions(s, ps, d)[k].id) == ExpectedId(ps, d, k)
  {
    var a, b := ConnectionActions(s, ps), PolicyActions(s, ps);
    Segments(a, b, AssignmentActions(s, ps, d), k);
    if k < |ps| {
      ConnectionActionId(s, ps, k);
    } else if k < 2 * |ps| {
      PolicyActionId(s, ps, k - |ps|);
    }
  }

  lemma {:induction false} Segments(a: seq<PlanAction>, b: seq<PlanAction>, c: seq<PlanAction>, k: nat)
    requires k < |a| + |b| + |c|
    ensures (a + b + c)[k] == if k < |a| then a[k] else if k < |a| + |b| then b[k - |a|] else c[k - |a| - |b|]
  {
  }

  lemma {:induction false} ConnectionActionId(s: Snapshot, ps: seq<Profile>, k: nat)
    requires k < |ps|
    ensures ConnectionActions(s, ps)[k].id == ConnectionStep(ps[k].slot)
  {
  }

  lemma {:induction false} PolicyActionId(s: Snapshot, ps: seq<Profile>, k: nat)
    requires k < |ps|
    ensures PolicyActions(s, ps)[k].id == PolicyStep(ps[k].slot)
  {
  }

  lemma {:induction false} VerificationIds(s: Snapshot, ps: seq<Profile>, d: Option<Device>, proven: bool, k: nat)
    requires ps != [] && k < |VerificationActions(s, d, proven)|
    ensures Some(VerificationActions(s, d, proven)[k].id) ==
            ExpectedId(ps, d, 2 * |ps| + (if d.Some? then 1 else 0) + k)
  {
  }

  lemma {:induction false} RenderedAt(s: Snapshot, ps: seq<Profile>, d: Option<Device>, proven: bool, k: nat)
    requires ps != [] && k < |Rendered(s, ps, d, proven)|
    ensures var (r, n, objects) := (Rendered(s, ps, d, proven), |ps|, |ObjectActions(s, ps, d)|);
            && objects == 2 * n + (if d.Some? then 1 else 0)
            && (k < n ==> r[k] == ConnectionAction(s, ps[k], ConnectionChoice(s, ps[k])))
            && (n <= k < 2 * n ==>
                  r[k] == PolicyAction(s, ps[k - n], ReferenceAt(s, ps[k - n]), PolicyChoiceFor(s, ps[k - n])))
            && (2 * n <= k < objects ==> d.Some? && k == 2 * n && r[k] == AssignmentActions(s, ps, d)[0])
            && (objects <= k ==> k - objects < |VerificationActions(s, d, proven)|
                                 && r[k] == VerificationActions(s, d, proven)[k - objects])
  {
    var a, b, c := ConnectionActions(s, ps), PolicyActions(s, ps), AssignmentActions(s, ps, d);
    assert ObjectActions(s, ps, d) == a + b + c;
  }

  /** Position k has the demanded shape exactly when what it depends on has a non-empty id. */
  lemma {:induction false} RenderedShape(s: Snapshot, ps: seq<Profile>, d: Option<Device>, proven: bool, k: nat)
    requires Normal(ps) && k < |Rendered(s, ps, d, proven)|
    ensures ActionShape(ps, d, Rendered(s, ps, d, proven)[k]) <==>
            if |ps| <= k < 2 * |ps| then NamedReference(ReferenceAt(s, ps[k - |ps|]))
            else if k == 2 * |ps| && d.Some? then NamedReference(PolicyReferenceAt(s, ps[0]))
            else true
  {
    var n := |ps|;
    RenderedAt(s, ps, d, proven, k);
    if k < n {
      SlotOf(ps, k);
      ConnectionActionShape(s, ps, d, ps[k]);
    } else if k < 2 * n {
      SlotOf(ps, k - n);
      PolicyActionShape(s, ps, d, ps[k - n]);
    } else if k == 2 * n && d.Some? {
      AssignmentActionShape(s, ps, d.value);
    } else {
      VerificationActionShape(s, ps, d, proven, k - |ObjectActions(s, ps, d)|);
    }
  }

  lemma {:induction false} RenderedShapes(s: Snapshot, ps: seq<Profile>, d: Option<Device>, proven: bool)
    requires Normal(ps)
    ensures (forall k :: 0 <= k < |Rendered(s, ps, d, proven)| ==> ActionShape(ps, d, Rendered(s, ps, d, proven)[k]))
            <==> NamedReferences(s, ps, d)
  {
    if NamedReferences(s, ps, d) {
      NamedIsShaped(s, ps, d, proven);
    } else if forall k :: 0 <= k < |Rendered(s, ps, d, proven)| ==> ActionShape(ps, d, Rendered(s, ps, d, proven)[k]) {
      ShapedIsNamed(s, ps, d, proven);
    }
  }

  lemma {:induction false} NamedIsShaped(s: Snapshot, ps: seq<Profile>, d: Option<Device>, proven: bool)
    requires Normal(ps) && NamedReferences(s, ps, d)
    ensures forall k :: 0 <= k < |Rendered(s, ps, d, proven)| ==> ActionShape(ps, d, Rendered(s, ps, d, proven)[k])
  {
    var r := Rendered(s, ps, d, proven);
    forall k | 0 <= k < |r| ensures ActionShape(ps, d, r[k]) {
      RenderedShape(s, ps, d, proven, k);
      if |ps| <= k < 2 * |ps| { assert ps[k - |ps|] in ps; }
    }
  }

  lemma {:induction false} ShapedIsNamed(s: Snapshot, ps: seq<Profile>, d: Option<Device>, proven: bool)
    requires Normal(ps)
    requires forall k :: 0 <= k < |Rendered(s, ps, d, proven)| ==> ActionShape(ps, d, Rendered(s, ps, d, proven)[k])
    ensures NamedReferences(s, ps, d)
  {
    assert |Rendered(s, ps, d, proven)| == ExpectedCount(ps, d) by { RenderedIds(s, ps, d, proven, 0); }
    forall i | 0 <= i < |ps| ensures NamedReference(ReferenceAt(s, ps[i])) {
      RenderedShape(s, ps, d, proven, |ps| + i);
    }
    if d.Some? {
      RenderedShape(s, ps, d, proven, 2 * |ps|);
    }
  }

  /** The readiness a planned action carries before a blocked plan overrides it. */
  lemma {:induction false} RenderedReadiness(s: Snapshot, ps: seq<Profile>, d: Option<Device>)
    requires ps != [] && AllChosen(s, ps, d)
    ensures forall a :: a in Rendered(s, ps, d, true) ==> !a.readiness.Blocked?
  {
    forall a | a in ConnectionActions(s, ps) ensures !a.readiness.Blocked? {
      var i :| 0 <= i < |ps| && ConnectionActions(s, ps)[i] == a;
      assert ps[i] in ps;
    }
    forall a | a in PolicyActions(s, ps) ensures !a.readiness.Blocked? {
      var i :| 0 <= i < |ps| && PolicyActions(s, ps)[i] == a;
      assert ps[i] in ps;
    }
    forall a | a in VerificationActions(s, d, true) ensures !a.readiness.Blocked? {
    }
  }

  lemma {:induction false} PlannedFromRendered(s: Snapshot, ps: seq<Profile>, d: Option<Device>, k: nat)
    requires ps != [] && Consistent(s) && k < |PlannedActions(s, ps, d)|
    ensures var r := Rendered(s, ps, d, NotTargeted(s, ObjectActions(s, ps, d)));
            |PlannedActions(s, ps, d)| == |r|
            && PlannedActions(s, ps, d)[k] == if PlanBlocked(s, ps, d) then r[k].(readiness := Blocked) else r[k]
  {
  }

  lemma {:induction false} PlannedIds(s: Snapshot, ps: seq<Profile>, d: Option<Device>)
    requires ps != [] && Consistent(s)
    ensures |PlannedActions(s, ps, d)| == ExpectedCount(ps, d)
    ensures forall k :: 0 <= k < |PlannedActions(s, ps, d)| ==>
              Some(PlannedActions(s, ps, d)[k].id) == ExpectedId(ps, d, k)
  {
    var proven := NotTargeted(s, ObjectActions(s, ps, d));
    RenderedIds(s, ps, d, proven, 0);
    forall k | 0 <= k < |PlannedActions(s, ps, d)|
      ensures Some(PlannedActions(s, ps, d)[k].id) == ExpectedId(ps, d, k)
    {
      PlannedFromRendered(s, ps, d, k);
      RenderedIds(s, ps, d, proven, k);
    }
  }

  lemma {:induction false} PlannedShapes(s: Snapshot, ps: seq<Profile>, d: Option<Device>)
    requires Normal(ps) && Consistent(s)
    ensures (forall a :: a in PlannedActions(s, ps, d) ==> ActionShape(ps, d, a)) <==> NamedReferences(s, ps, d)
  {
    var r := Rendered(s, ps, d, NotTargeted(s, ObjectActions(s, ps, d)));
    var actions := PlannedActions(s, ps, d);
    forall k | 0 <= k < |actions| ensures ActionShape(ps, d, actions[k]) == ActionShape(ps, d, r[k]) {
      PlannedFromRendered(s, ps, d, k);
      ShapeIgnoresReadiness(ps, d, r[k]);
    }
    assert |actions| == |r|;
    RenderedShapes(s, ps, d, NotTargeted(s, ObjectActions(s, ps, d)));
    if forall a :: a in actions ==> ActionShape(ps, d, a) {
      forall k | 0 <= k < |r| ensures ActionShape(ps, d, r[k]) {
        assert actions[k] in actions;
      }
    }
  }

  lemma {:induction false} BlockedActionsAreBlocked(actions: seq<PlanAction>)
    ensures forall a :: a in BlockAll(actions) ==> a.readiness.Blocked?
  {
  }

  lemma {:induction false} PlannedReadiness(s: Snapshot, ps: seq<Profile>, d: Option<Device>)
    requires ps != [] && Consistent(s)
    ensures ReadinessCoherent(PlanFor(s, ps, d))
  {
    if PlanBlocked(s, ps, d) {
      BlockedActionsAreBlocked(Rendered(s, ps, d, NotTargeted(s, ObjectActions(s, ps, d))));
    } else {
      RenderedReadiness(s, ps, d);
    }
  }

  lemma {:induction false} LastRendered(s: Snapshot, ps: seq<Profile>, d: Option<Device>, proven: bool)
    requires ps != []
    ensures var r := Rendered(s, ps, d, proven);
            && r != [] && r[|r| - 1].id.VerifyDefault? && r[|r| - 1].observedId == s.defaultRef
            && (if proven then r[|r| - 1].reason.None? else r[|r| - 1].readiness.Blocked? && r[|r| - 1].reason.Some?)
  {
  }

  lemma {:induction false} PlannedSize(s: Snapshot, ps: seq<Profile>, d: Option<Device>)
    requires ps != [] && Consistent(s)
    ensures |PlannedActions(s, ps, d)| == |Rendered(s, ps, d, NotTargeted(s, ObjectActions(s, ps, d)))|
  {
  }

  lemma {:induction false} DefaultProjectionNames(s: Snapshot)
    requires Consistent(s)
    ensures DefaultProjection(s).defaultRef == s.defaultRef
  {
  }

  lemma {:induction false} PlannedDefaultAction(s: Snapshot, ps: seq<Profile>, d: Option<Device>)
    requires ps != [] && Consistent(s)
    ensures PlannedActions(s, ps, d) != [] && DefaultActionShape(PlanFor(s, ps, d))
  {
    LastPlanned(s, ps, d);
    DefaultProjectionNames(s);
  }

  lemma {:induction false} LastPlanned(s: Snapshot, ps: seq<Profile>, d: Option<Device>)
    requires ps != [] && Consistent(s)
    ensures var actions := PlannedActions(s, ps, d);
            && actions != []
            && var last := actions[|actions| - 1];
            && last.id.VerifyDefault? && last.observedId == s.defaultRef
            && (if NotTargeted(s, ObjectActions(s, ps, d)) then last.reason.None?
                else last.readiness.Blocked? && last.reason.Some?)
  {
    var proven := NotTargeted(s, ObjectActions(s, ps, d));
    PlannedSize(s, ps, d);
    LastRendered(s, ps, d, proven);
    PlannedFromRendered(s, ps, d, |Rendered(s, ps, d, proven)| - 1);
  }

  /** A plan built for valid inputs, blocked or not, passes its own validator exactly when no reused object
      it depends on has an empty id. */
  lemma {:induction false} BuiltPlanIntegrity(s: Snapshot, ps: seq<Profile>, d: Option<Device>)
    requires Normal(ps) && NormalDevice(d) && Consistent(s)
    ensures Integrity(PlanFor(s, ps, d)) <==> NamedReferences(s, ps, d)
  {
    NormalProfilesAreFixed(ps);
    PlannedIds(s, ps, d);
    PlannedShapes(s, ps, d);
    PlannedReadiness(s, ps, d);
    PlannedDefaultAction(s, ps, d);
  }

  lemma {:induction false} ReferencesComeFromObjects(s: Snapshot, p: Profile)
    requires (forall c :: c in s.connections ==> c.id != "") && (forall q :: q in s.policies ==> q.id != "")
    ensures NamedReference(ReferenceAt(s, p)) && NamedReference(PolicyReferenceAt(s, p))
  {
    if ConnectionChoice(s, p).Reuse? {
      assert ConnectionChoice(s, p).existing in s.connections;
    }
    if PolicyChoiceFor(s, p).Reuse? {
      assert PolicyChoiceFor(s, p).existing in s.policies;
    }
  }

  /** So every plan built on an inventory without empty ids, as the snapshot parser delivers it, passes its
      validator. */
  lemma {:induction false} NamedInventoryPasses(s: Snapshot, ps: seq<Profile>, d: Option<Device>)
    requires Normal(ps) && NormalDevice(d) && Consistent(s)
    requires (forall c :: c in s.connections ==> c.id != "") && (forall q :: q in s.policies ==> q.id != "")
    ensures Integrity(PlanFor(s, ps, d))
  {
    forall p ensures NamedReference(ReferenceAt(s, p)) && NamedReference(PolicyReferenceAt(s, p)) {
      ReferencesComeFromObjects(s, p);
    }
    BuiltPlanIntegrity(s, ps, d);
  }

  const NAMED_PROFILE := Profile(1, "primary", "127.0.0.1", 1082, true, SOCKS5, NO_AUTH)
  const UNNAMED_CONNECTION :=
    Connection("", ConnectionName(NAMED_PROFILE), SOCKS5, "127.0.0.1", 1082, NO_AUTH, true, true)
  const UNNAMED_SNAPSHOT := Snapshot("s", SUPPORTED, false, Unknown, None, [UNNAMED_CONNECTION], [], [], [])

  lemma {:induction false} UnnamedReference()
    ensures ReferenceAt(UNNAMED_SNAPSHOT, NAMED_PROFILE) == Some(ExistingReference(ExistingConnection, ""))
  {
    var s, p := UNNAMED_SNAPSHOT, NAMED_PROFILE;
    assert UNNAMED_CONNECTION in s.connections;
    assert UNNAMED_CONNECTION in ExactConnections(s, p);
    SingletonPick(ExactConnections(s, p), UNNAMED_CONNECTION);
  }

  lemma {:induction false} UnnamedInputsAreValid()
    ensures Normal([NAMED_PROFILE]) && Consistent(UNNAMED_SNAPSHOT)
  {
  }

  /** An instance: a consistent snapshot whose one matching connection has an empty id makes the planner emit a plan
      its own validator refuses. */
  lemma {:induction false} EmptyIdentifierBreaksPlan()
    ensures Normal([NAMED_PROFILE]) && Consistent(UNNAMED_SNAPSHOT)
    ensures !Integrity(PlanFor(UNNAMED_SNAPSHOT, [NAMED_PROFILE], None))
  {
    UnnamedInputsAreValid();
    UnnamedReference();
    assert NAMED_PROFILE in [NAMED_PROFILE];
    BuiltPlanIntegrity(UNNAMED_SNAPSHOT, [NAMED_PROFILE], None);
  }
}
