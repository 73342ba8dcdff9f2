/** `build_change_plan` as it runs: loops that append actions, fill references and flip `blocked`. */
module PlanBuild {
  import opened Wrappers
  import opened PlanModel
  import opened PlanBuilder
  import opened Sets
  import opened PlanIntegrity
  import opened Ordering
  import PlanStatus

  /** The observed connections equivalent to a profile, sorted by id; more than one is ambiguous. */
  method CollectExactConnections(s: Snapshot, p: Profile) returns (exact: seq<Connection>)
    requires ConnectionsDistinct(s.connections)
    ensures forall c :: c in exact <==> c in ExactConnections(s, p)
    ensures |exact| > 1 <==> |ExactConnections(s, p)| > 1
    ensures |exact| == 1 ==> ExactConnections(s, p) != {} && exact[0] == Pick(ExactConnections(s, p))
  {
    var found: seq<Connection> := [];
    for i := 0 to |s.connections|
      invariant forall c :: c in found <==> c in s.connections[..i] && ConnectionEquivalent(c, p)
      invariant forall k, l :: 0 <= k < l < |found| ==> found[k] != found[l]
    {
      var c := s.connections[i];
      if ConnectionEquivalent(c, p) {
        found := found + [c];
      }
    }
    assert s.connections[..|s.connections|] == s.connections;
    exact := Sort(ConnectionLeq, found);
    SortPermutes(ConnectionLeq, found);
    SameMembers(exact, found);
    DistinctCount(found, ExactConnections(s, p));
    if |exact| == 1 {
      SingleMember(exact, ExactConnections(s, p));
    }
  }

  lemma {:induction false} SingleMember<T>(xs: seq<T>, members: set<T>)
    requires |xs| == 1 && forall x :: x in xs <==> x in members
    ensures members != {} && Pick(members) == xs[0]
  {
    assert xs[0] in xs;
    SingletonPick(members, xs[0]);
  }

  lemma {:induction false} DistinctCount<T>(xs: seq<T>, members: set<T>)
    requires forall k, l :: 0 <= k < l < |xs| ==> xs[k] != xs[l]
    requires forall x :: x in xs <==> x in members
    ensures |xs| == |members|
  {
    if xs == [] {
      assert members == {};
    } else {
      assert xs == [xs[0]] + xs[1..];
      DistinctCount(xs[1..], members - {xs[0]});
    }
  }

  method CollectExactPolicies(s: Snapshot, ref: Reference) returns (exact: seq<Policy>)
    requires PoliciesDistinct(s.policies)
    ensures forall q :: q in exact <==> q in ExactPolicies(s, ref)
    ensures |exact| > 1 <==> |ExactPolicies(s, ref)| > 1
    ensures |exact| == 1 ==> ExactPolicies(s, ref) != {} && exact[0] == Pick(ExactPolicies(s, ref))
  {
    var found: seq<Policy> := [];
    if ref.kind.ExistingConnection? {
      for i := 0 to |s.policies|
        invariant forall q :: q in found <==> q in s.policies[..i] && PolicyEquivalent(q, ref.value.GetOr(""))
        invariant forall k, l :: 0 <= k < l < |found| ==> found[k] != found[l]
      {
        var q := s.policies[i];
        if PolicyEquivalent(q, ref.value.GetOr("")) {
          found := found + [q];
        }
      }
      assert s.policies[..|s.policies|] == s.policies;
    }
    exact := Sort(PolicyLeq, found);
    SortPermutes(PolicyLeq, found);
    SameMembers(exact, found);
    DistinctCount(found, ExactPolicies(s, ref));
    if |exact| == 1 {
      SingleMember(exact, ExactPolicies(s, ref));
    }
  }

  method FindNamedConnection(s: Snapshot, p: Profile) returns (named: Option<Connection>)
    requires ConnectionsDistinct(s.connections)
    ensures named.None? <==> NamedConnections(s, p) == {}
    ensures named.Some? ==> named.value == Pick(NamedConnections(s, p))
  {
    named := None;
    for i := 0 to |s.connections|
      invariant named.None?
      invariant forall k :: 0 <= k < i ==> s.connections[k].name.folded != ConnectionName(p).folded
    {
      if s.connections[i].name.folded == ConnectionName(p).folded {
        ghost var members := NamedConnections(s, p);
        forall c | c in members ensures c == s.connections[i] {
          SameConnection(s.connections, c, s.connections[i]);
        }
        SingletonPick(members, s.connections[i]);
        return Some(s.connections[i]);
      }
    }
  }

  method FindNamedPolicy(s: Snapshot, p: Profile) returns (named: Option<Policy>)
    requires PoliciesDistinct(s.policies)
    ensures named.None? <==> NamedPolicies(s, p) == {}
    ensures named.Some? ==> named.value == Pick(NamedPolicies(s, p))
  {
    named := None;
    for i := 0 to |s.policies|
      invariant named.None?
      invariant forall k :: 0 <= k < i ==> s.policies[k].name.folded != PolicyName(p).folded
    {
      if s.policies[i].name.folded == PolicyName(p).folded {
        ghost var members := NamedPolicies(s, p);
        forall q | q in members ensures q == s.policies[i] {
          SamePolicy(s.policies, q, s.policies[i]);
        }
        SingletonPick(members, s.policies[i]);
        return Some(s.policies[i]);
      }
    }
  }

  /** The branch taken for one profile's connection. */
  method ChooseConnection(s: Snapshot, p: Profile) returns (choice: Choice<Connection>)
    requires Consistent(s)
    ensures choice == ConnectionChoice(s, p)
    ensures choice.Create? <==> PlanStatus.NeedsConnection(s, p)
    ensures forall c :: choice == Reuse(c) <==> PlanStatus.KeepsConnection(s, p, c)
  {
    PlanStatus.ProfileChoices(s, p);
    var exact := CollectExactConnections(s, p);
    var named := FindNamedConnection(s, p);
    if |exact| > 1 {
      choice := Refuse(SemanticMatch(AmbiguousMatch), None, MultipleConnections);
    } else if |exact| == 1 {
      assert exact[0] in exact;
      choice := Reuse(exact[0]);
    } else if named.Some? {
      choice := Refuse(
        SemanticMatch(Mismatch), named, if named.value.complete then DifferentConnection else IncompleteConnection);
    } else if IdTaken(s, SimulatedConnectionId(p.slot)) {
      choice := Refuse(NoProposal, None, ConnectionIdCollision);
    } else {
      choice := Create;
    }
  }

  method ChoosePolicy(s: Snapshot, p: Profile, ref: Option<Reference>) returns (choice: Choice<Policy>)
    requires Consistent(s)
    ensures choice == PolicyChoice(s, p, ref)
  {
    if ref.None? {
      return Refuse(NoProposal, None, NoConnectionDependency);
    }
    var exact := CollectExactPolicies(s, ref.value);
    var named := FindNamedPolicy(s, p);
    if |exact| > 1 {
      choice := Refuse(NoProposal, None, MultiplePolicies);
    } else if |exact| == 1 {
      assert exact[0] in exact;
      choice := Reuse(exact[0]);
    } else if named.Some? {
      choice := Refuse(SemanticMatch(Mismatch), named, PolicyMismatch(s, named.value));
    } else if IdTaken(s, SimulatedPolicyId(p.slot)) {
      choice := Refuse(NoProposal, None, PolicyIdCollision);
    } else {
      choice := Create;
    }
  }

  /** A reference table holds exactly what `wanted` gives each profile, and nothing for other slots. */
  ghost predicate Records(ps: seq<Profile>, wanted: Profile -> Option<Reference>, refs: map<int, Reference>) {
    && (forall p :: p in ps ==> (if p.slot in refs then Some(refs[p.slot]) else None) == wanted(p))
    && (forall slot :: slot in refs ==> exists p :: p in ps && p.slot == slot)
  }

  predicate DistinctSlots(ps: seq<Profile>) {
    forall i, j :: 0 <= i < j < |ps| ==> ps[i].slot != ps[j].slot
  }

  /** Recording one more profile's reference under its fresh slot. */
  lemma {:induction false} RecordNext(
    ps: seq<Profile>, i: nat, wanted: Profile -> Option<Reference>, refs: map<int, Reference>,
    refs': map<int, Reference>)
    requires i < |ps| && DistinctSlots(ps) && Records(ps[..i], wanted, refs)
    requires refs' == if wanted(ps[i]).Some? then refs[ps[i].slot := wanted(ps[i]).value] else refs
    ensures Records(ps[..i + 1], wanted, refs')
  {
    assert ps[..i + 1] == ps[..i] + [ps[i]];
    assert ps[i].slot !in refs;
    forall p | p in ps[..i] ensures p.slot != ps[i].slot {
      var k :| 0 <= k < i && ps[k] == p;
    }
    forall p | p in ps[..i + 1] ensures (if p.slot in refs' then Some(refs'[p.slot]) else None) == wanted(p) {
    }
  }

  ghost function ConnectionReferences(s: Snapshot): Profile -> Option<Reference> {
    p => ReferenceAt(s, p)
  }

  ghost function PolicyReferences(s: Snapshot): Profile -> Option<Reference> {
    p => PolicyReferenceAt(s, p)
  }

  ghost predicate ConnectionRefused(s: Snapshot, ps: seq<Profile>) {
    exists p :: p in ps && ConnectionChoice(s, p).Refuse?
  }

  ghost predicate PolicyRefused(s: Snapshot, ps: seq<Profile>) {
    exists p :: p in ps && PolicyChoiceFor(s, p).Refuse?
  }

  lemma {:induction false} NextConnection(s: Snapshot, ps: seq<Profile>, i: nat)
    requires i < |ps|
    ensures ConnectionActions(s, ps[..i + 1])
            == ConnectionActions(s, ps[..i]) + [ConnectionAction(s, ps[i], ConnectionChoice(s, ps[i]))]
    ensures ConnectionRefused(s, ps[..i + 1]) <==> ConnectionRefused(s, ps[..i]) || ConnectionChoice(s, ps[i]).Refuse?
  {
    assert ps[..i + 1] == ps[..i] + [ps[i]];
  }

  lemma {:induction false} NextPolicy(s: Snapshot, ps: seq<Profile>, i: nat)
    requires i < |ps|
    ensures PolicyActions(s, ps[..i + 1])
            == PolicyActions(s, ps[..i]) + [PolicyAction(s, ps[i], ReferenceAt(s, ps[i]), PolicyChoiceFor(s, ps[i]))]
    ensures PolicyRefused(s, ps[..i + 1]) <==> PolicyRefused(s, ps[..i]) || PolicyChoiceFor(s, ps[i]).Refuse?
  {
    assert ps[..i + 1] == ps[..i] + [ps[i]];
  }

  method PlanConnections(s: Snapshot, ps: seq<Profile>)
    returns (actions: seq<PlanAction>, refs: map<int, Reference>, blocked: bool)
    requires Consistent(s) && DistinctSlots(ps)
    ensures actions == ConnectionActions(s, ps)
    ensures Records(ps, ConnectionReferences(s), refs)
    ensures blocked <==> ConnectionRefused(s, ps)
  {
    actions, refs, blocked := [], map[], false;
    for i := 0 to |ps|
      invariant actions == ConnectionActions(s, ps[..i])
      invariant Records(ps[..i], ConnectionReferences(s), refs)
      invariant blocked <==> ConnectionRefused(s, ps[..i])
    {
      var p := ps[i];
      var choice := ChooseConnection(s, p);
      NextConnection(s, ps, i);
      ghost var before := refs;
      if choice.Refuse? {
        blocked := true;
      } else {
        refs := refs[p.slot := ConnectionReference(choice, p).value];
      }
      RecordNext(ps, i, ConnectionReferences(s), before, refs);
      actions := actions + [ConnectionAction(s, p, choice)];
    }
    assert ps[..|ps|] == ps;
  }

  method PlanPolicies(s: Snapshot, ps: seq<Profile>, connectionRefs: map<int, Reference>)
    returns (actions: seq<PlanAction>, refs: map<int, Reference>, blocked: bool)
    requires Consistent(s) && DistinctSlots(ps) && Records(ps, ConnectionReferences(s), connectionRefs)
    ensures actions == PolicyActions(s, ps)
    ensures Records(ps, PolicyReferences(s), refs)
    ensures blocked <==> PolicyRefused(s, ps)
  {
    actions, refs, blocked := [], map[], false;
    for i := 0 to |ps|
      invariant actions == PolicyActions(s, ps[..i])
      invariant Records(ps[..i], PolicyReferences(s), refs)
      invariant blocked <==> PolicyRefused(s, ps[..i])
    {
      var p := ps[i];
      assert p in ps;
      var ref := if p.slot in connectionRefs then Some(connectionRefs[p.slot]) else None;
      var choice := ChoosePolicy(s, p, ref);
      NextPolicy(s, ps, i);
      ghost var before := refs;
      if choice.Refuse? {
        blocked := true;
      } else {
        refs := refs[p.slot := PolicyReference(choice, p).value];
      }
      RecordNext(ps, i, PolicyReferences(s), before, refs);
      actions := actions + [PolicyAction(s, p, ref, choice)];
    }
    assert ps[..|ps|] == ps;
  }

  lemma {:induction false} NormalSlotsDistinct(ps: seq<Profile>)
    requires Normal(ps)
    ensures DistinctSlots(ps)
  {
    forall i, j | 0 <= i < j < |ps| ensures ps[i].slot != ps[j].slot {
      assert ps[i].slot == i + 1 && ps[j].slot == j + 1;
    }
  }

  lemma {:induction false} RefusalsSplit(s: Snapshot, ps: seq<Profile>, d: Option<Device>)
    requires ps != []
    ensures !AllChosen(s, ps, d) <==>
            ConnectionRefused(s, ps) || PolicyRefused(s, ps)
            || (d.Some? && AssignmentChoiceFor(s, ps[0], d.value).RefuseAssignment?)
  {
  }

  method PlanAssignment(s: Snapshot, ps: seq<Profile>, d: Option<Device>, policyRefs: map<int, Reference>)
    returns (actions: seq<PlanAction>, refused: bool)
    requires ps != [] && Records(ps, PolicyReferences(s), policyRefs)
    ensures actions == AssignmentActions(s, ps, d)
    ensures refused <==> d.Some? && AssignmentChoiceFor(s, ps[0], d.value).RefuseAssignment?
  {
    actions, refused := [], false;
    if d.Some? {
      var primary := ps[0];
      assert primary in ps;
      var ref := if primary.slot in policyRefs then Some(policyRefs[primary.slot]) else None;
      var choice := ChooseAssignment(s, d.value, ref);
      if choice.RefuseAssignment? {
        refused := true;
      }
      actions := actions + [AssignmentAction(s, primary, d.value, ref, choice)];
    }
  }

  /** The object actions and whether any of them had to refuse. */
  method PlanObjects(s: Snapshot, ps: seq<Profile>, d: Option<Device>)
    returns (actions: seq<PlanAction>, refused: bool)
    requires Consistent(s) && Normal(ps)
    ensures actions == ObjectActions(s, ps, d)
    ensures refused <==> !AllChosen(s, ps, d)
  {
    NormalSlotsDistinct(ps);
    var connectionActions, connectionRefs, connectionsBlocked := PlanConnections(s, ps);
    var policyActions, policyRefs, policiesBlocked := PlanPolicies(s, ps, connectionRefs);
    var assignmentActions, assignmentBlocked := PlanAssignment(s, ps, d, policyRefs);
    actions := connectionActions + policyActions + assignmentActions;
    refused := connectionsBlocked || policiesBlocked || assignmentBlocked;
    RefusalsSplit(s, ps, d);
  }

  /** Every input has one outcome: the manifest, the device and the snapshot are refused in that order; otherwise
      the one plan is returned, unless it fails its own validator, and it may go ahead exactly when the records say
      so. */
  method BuildChangePlan(m: Manifest, s: Snapshot, device: Option<Device>) returns (r: Result<ChangePlan, PlanError>)
    ensures NormalizeManifest(m).Err? ==> r == Err(ManifestError)
    ensures NormalizeManifest(m).Ok? && NormalizeDeviceOption(device).Err? ==> r == Err(DeviceError)
    ensures NormalizeManifest(m).Ok? && NormalizeDeviceOption(device).Ok? && !Consistent(s) ==> r == Err(SnapshotError)
    ensures NormalizeManifest(m).Ok? && NormalizeDeviceOption(device).Ok? && Consistent(s) ==>
              var ps, d := NormalizeManifest(m).value, NormalizeDeviceOption(device).value;
              && Normal(ps) && NormalDevice(d)
              && r == (if NamedReferences(s, ps, d) then Ok(PlanFor(s, ps, d)) else Err(IntegrityError))
              && (r.Ok? <==> PlanStatus.IdsAreNamed(s, ps, d))
              && (r.Ok? ==> (r.value.status.HardwarePending? <==> PlanStatus.Plannable(s, ps, d)))
  {
    var normalized := NormalizeManifest(m);
    if normalized.Err? {
      return Err(ManifestError);
    }
    var selected := NormalizeDeviceOption(device);
    if selected.Err? {
      return Err(DeviceError);
    }
    if !Consistent(s) {
      return Err(SnapshotError);
    }
    NormalizedProfilesAreNormal(m.profiles);
    NormalizedDeviceIsNormal(device);
    var plan := BuildNormalPlan(s, normalized.value, selected.value);
    BuiltPlanIntegrity(s, normalized.value, selected.value);
    PlanStatus.PlanIsEmittedIff(s, normalized.value, selected.value);
    PlanStatus.PlanGoesAheadIff(s, normalized.value, selected.value);
    if !Integrity(plan) {
      return Err(IntegrityError);
    }
    return Ok(plan);
  }

  method BuildNormalPlan(s: Snapshot, ps: seq<Profile>, d: Option<Device>) returns (plan: ChangePlan)
    requires Consistent(s) && Normal(ps)
    ensures plan == PlanFor(s, ps, d)
  {
    var blocked := s.state != SUPPORTED || s.stale || !DefaultProven(s);
    var actions, refused := PlanObjects(s, ps, d);
    if refused {
      blocked := true;
    }
    var notTargeted := NotTargeted(s, actions);
    if !notTargeted {
      blocked := true;
    }
    actions := actions + VerificationActions(s, d, notTargeted);
    if blocked {
      actions := BlockAll(actions);
    }
    plan := SealPlan(ps, SemanticFingerprint(s), DefaultProjection(s), actions, blocked, notTargeted, d);
  }
}
