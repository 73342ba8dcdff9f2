/** When a plan may go ahead and what it does to each object, in terms of the observed records alone
    (scripts/routerkit_netcraze_plan.py:1242-1270, 1273-1691). */
module PlanStatus {
  import opened Wrappers
  import opened Text
  import opened PlanModel
  import opened PlanBuilder
  import opened Sets
  import opened PlanIntegrity

  // ---- What the records say ----

  /** The connection is complete and equal to the profile in every field the two share. */
  predicate Carries(c: Connection, p: Profile) {
    c == Connection(c.id, c.name, p.protocol, p.host, p.port, p.authMode, p.enabled, true)
  }

  /** The policy is complete, sends everything through the given connection, and does nothing else. */
  predicate Serves(q: Policy, connectionId: string) {
    q == Policy(q.id, q.name, connectionId, PROXY_ONLY, false, true, false)
  }

  predicate IsConnectionOf(s: Snapshot, p: Profile, c: Connection) {
    c in s.connections && Carries(c, p)
  }

  predicate IsPolicyOn(s: Snapshot, connectionId: string, q: Policy) {
    q in s.policies && Serves(q, connectionId)
  }

  /** c is the one connection that already is what the profile asks for. */
  ghost predicate KeepsConnection(s: Snapshot, p: Profile, c: Connection) {
    IsConnectionOf(s, p, c) && forall x :: IsConnectionOf(s, p, x) ==> x == c
  }

  ghost predicate KeepsPolicy(s: Snapshot, connectionId: string, q: Policy) {
    IsPolicyOn(s, connectionId, q) && forall x :: IsPolicyOn(s, connectionId, x) ==> x == q
  }

  /** No observed object has this id. */
  predicate IdIsFree(s: Snapshot, id: string) {
    (forall c :: c in s.connections ==> c.id != id) && (forall q :: q in s.policies ==> q.id != id)
  }

  predicate ConnectionNameIsFree(s: Snapshot, p: Profile) {
    forall c :: c in s.connections ==> c.name.folded != "routerkit-socks-" + IntText(p.port)
  }

  predicate PolicyNameIsFree(s: Snapshot, p: Profile) {
    forall q :: q in s.policies ==> q.name.folded != "routerkit-policy-" + IntText(p.port)
  }

  /** No connection is what the profile asks for, and nothing stands in the way of a new one. */
  ghost predicate NeedsConnection(s: Snapshot, p: Profile) {
    && (forall c :: !IsConnectionOf(s, p, c)) && ConnectionNameIsFree(s, p)
    && IdIsFree(s, "simulation:connection:slot-" + IntText(p.slot))
  }

  /** Nothing stands in the way of a new policy for the profile. */
  predicate PolicyIsFree(s: Snapshot, p: Profile) {
    PolicyNameIsFree(s, p) && IdIsFree(s, "simulation:policy:slot-" + IntText(p.slot))
  }

  ghost predicate NeedsPolicyOn(s: Snapshot, p: Profile, connectionId: string) {
    (forall q :: !IsPolicyOn(s, connectionId, q)) && PolicyIsFree(s, p)
  }

  /** The id names the default policy or the connection it uses. */
  predicate Protected(s: Snapshot, id: string) {
    exists q :: q in s.policies && q.isDefault && (id == q.id || id == q.connectionRef)
  }

  /** The profile's connection is kept or can be made, and so can a policy on it; a new policy never hangs on what the
      default policy uses. */
  ghost predicate ProfileReady(s: Snapshot, p: Profile) {
    || (NeedsConnection(s, p) && PolicyIsFree(s, p))
    || (exists c :: KeepsConnection(s, p, c)
                    && ((exists q :: KeepsPolicy(s, c.id, q)) || (NeedsPolicyOn(s, p, c.id) && !Protected(s, c.id))))
  }

  /** q is the policy an unblocked plan keeps for the profile. */
  ghost predicate KeepsBoth(s: Snapshot, p: Profile, c: Connection, q: Policy) {
    KeepsConnection(s, p, c) && KeepsPolicy(s, c.id, q)
  }

  predicate HasNoAssignment(s: Snapshot, mac: string) {
    forall x :: x in s.assignments ==> x.mac != mac
  }

  /** The device is unassigned, and the policy it would get is not the default's, or it already is where it belongs. */
  ghost predicate DeviceReady(s: Snapshot, p: Profile, mac: string) {
    || (HasNoAssignment(s, mac) && forall c, q :: KeepsBoth(s, p, c, q) ==> !Protected(s, q.id))
    || (exists c, q :: KeepsBoth(s, p, c, q) && Assignment(mac, q.id) in s.assignments)
  }

  /** The plan for this request can go ahead. */
  ghost predicate Plannable(s: Snapshot, ps: seq<Profile>, d: Option<Device>)
    requires ps != []
  {
    && s.state == "supported" && !s.stale && s.defaultStatus.Known? && s.defaultRef.Some?
    && (forall p :: p in ps ==> ProfileReady(s, p))
    && (d.Some? ==> DeviceReady(s, ps[0], d.value.mac))
  }

  // ---- Connections ----

  lemma {:induction false} CarriesIsEquivalent(s: Snapshot, p: Profile, c: Connection)
    ensures IsConnectionOf(s, p, c) <==> c in ExactConnections(s, p)
  {
  }

  lemma {:induction false} SoleMember<T>(xs: set<T>, x: T)
    ensures (x in xs && forall y :: y in xs ==> y == x) <==> |xs| == 1 && Pick(xs) == x
  {
    if x in xs && forall y :: y in xs ==> y == x {
      SingletonPick(xs, x);
      assert xs == {x};
    } else if |xs| == 1 && Pick(xs) == x {
      forall y | y in xs ensures y == x {
        if y != x {
          TwoMembers(xs, x, y);
        }
      }
    }
  }

  lemma {:induction false} KeptConnection(s: Snapshot, p: Profile, c: Connection)
    ensures KeepsConnection(s, p, c) <==> ConnectionChoice(s, p) == Reuse(c)
  {
    var exact := ExactConnections(s, p);
    SoleMember(exact, c);
    forall x ensures IsConnectionOf(s, p, x) <==> x in exact {
      CarriesIsEquivalent(s, p, x);
    }
  }

  lemma {:induction false} NeededConnection(s: Snapshot, p: Profile)
    ensures NeedsConnection(s, p) <==> ConnectionChoice(s, p).Create?
  {
    var exact, named := ExactConnections(s, p), NamedConnections(s, p);
    forall x ensures IsConnectionOf(s, p, x) <==> x in exact {
      CarriesIsEquivalent(s, p, x);
    }
    assert ConnectionNameIsFree(s, p) <==> named == {} by {
      if ConnectionNameIsFree(s, p) {
        assert named == {};
      } else {
        var c :| c in s.connections && c.name.folded == "routerkit-socks-" + IntText(p.port);
        assert c in named;
      }
    }
    assert IdIsFree(s, SimulatedConnectionId(p.slot)) <==> !IdTaken(s, SimulatedConnectionId(p.slot));
  }

  // ---- Policies ----

  lemma {:induction false} KeptPolicy(s: Snapshot, p: Profile, id: string, q: Policy)
    ensures KeepsPolicy(s, id, q)
            <==> PolicyChoice(s, p, Some(ExistingReference(ExistingConnection, id))) == Reuse(q)
  {
    var exact := ExactPolicies(s, ExistingReference(ExistingConnection, id));
    SoleMember(exact, q);
    forall x ensures IsPolicyOn(s, id, x) <==> x in exact {
    }
  }

  lemma {:induction false} FreePolicy(s: Snapshot, p: Profile)
    ensures PolicyIsFree(s, p) <==> NamedPolicies(s, p) == {} && !IdTaken(s, SimulatedPolicyId(p.slot))
  {
    var named := NamedPolicies(s, p);
    if PolicyNameIsFree(s, p) {
      assert named == {};
    } else {
      var q :| q in s.policies && q.name.folded == "routerkit-policy-" + IntText(p.port);
      assert q in named;
    }
    assert IdIsFree(s, SimulatedPolicyId(p.slot)) <==> !IdTaken(s, SimulatedPolicyId(p.slot));
  }

  lemma {:induction false} NeededPolicy(s: Snapshot, p: Profile, id: string)
    ensures NeedsPolicyOn(s, p, id)
            <==> PolicyChoice(s, p, Some(ExistingReference(ExistingConnection, id))).Create?
  {
    var exact := ExactPolicies(s, ExistingReference(ExistingConnection, id));
    forall x ensures IsPolicyOn(s, id, x) <==> x in exact {
    }
    FreePolicy(s, p);
  }

  lemma {:induction false} PolicyOnPlanned(s: Snapshot, p: Profile)
    ensures var choice := PolicyChoice(s, p, Some(PlannedReference(PlannedConnection, p.slot)));
            !choice.Reuse? && (choice.Create? <==> PolicyIsFree(s, p))
  {
    FreePolicy(s, p);
  }

  /** Both choices for one profile, in terms of the records. */
  lemma {:induction false} ProfileChoices(s: Snapshot, p: Profile)
    ensures ConnectionChoice(s, p).Create? <==> NeedsConnection(s, p)
    ensures forall c :: KeepsConnection(s, p, c) <==> ConnectionChoice(s, p) == Reuse(c)
    ensures ConnectionChoice(s, p).Create? ==>
              !PolicyChoiceFor(s, p).Reuse? && (PolicyChoiceFor(s, p).Create? <==> PolicyIsFree(s, p))
    ensures forall c, q :: KeepsBoth(s, p, c, q) <==>
              ConnectionChoice(s, p) == Reuse(c) && PolicyChoiceFor(s, p) == Reuse(q)
    ensures forall c :: KeepsConnection(s, p, c) ==>
              (PolicyChoiceFor(s, p).Create? <==> NeedsPolicyOn(s, p, c.id))
    ensures ConnectionChoice(s, p).Refuse? ==>
              PolicyChoiceFor(s, p) == Refuse(NoProposal, None, NoConnectionDependency)
  {
    NeededConnection(s, p);
    PolicyOnPlanned(s, p);
    forall c ensures KeepsConnection(s, p, c) <==> ConnectionChoice(s, p) == Reuse(c) {
      KeptConnection(s, p, c);
    }
    forall c, q
      ensures KeepsBoth(s, p, c, q) <==> ConnectionChoice(s, p) == Reuse(c) && PolicyChoiceFor(s, p) == Reuse(q)
    {
      KeptPolicy(s, p, c.id, q);
    }
    forall c | KeepsConnection(s, p, c) ensures PolicyChoiceFor(s, p).Create? <==> NeedsPolicyOn(s, p, c.id) {
      NeededPolicy(s, p, c.id);
    }
  }

  // ---- The default policy ----

  lemma {:induction false} ObservedDefaultMembers(qs: seq<Policy>, q: Policy)
    ensures q in ObservedDefaults(qs) <==> q in qs && q.isDefault
  {
    if qs != [] {
      ObservedDefaultMembers(qs[1..], q);
      assert qs == [qs[0]] + qs[1..];
    }
  }

  ghost function DefaultPolicy(s: Snapshot): Policy
    requires Consistent(s) && s.defaultStatus.Known? && s.defaultRef.Some?
  {
    FindPolicy(s.policies, s.defaultRef.value).value
  }

  ghost function DefaultConnection(s: Snapshot): Connection
    requires Consistent(s) && s.defaultStatus.Known? && s.defaultRef.Some?
  {
    FindConnection(s.connections, DefaultPolicy(s).connectionRef).value
  }

  lemma {:induction false} ProtectedIds(s: Snapshot, id: string)
    requires Consistent(s) && s.defaultStatus.Known? && s.defaultRef.Some?
    ensures Protected(s, id) <==> id == DefaultPolicy(s).id || id == DefaultConnection(s).id
    ensures DefaultPolicy(s) in s.policies && DefaultConnection(s) in s.connections
  {
    var q := DefaultPolicy(s);
    FoundPolicy(s.policies, s.defaultRef.value);
    FoundConnection(s.connections, q.connectionRef);
    forall x ensures x in s.policies && x.isDefault <==> x == q {
      ObservedDefaultMembers(s.policies, x);
    }
  }

  lemma {:induction false} AvoidAll(actions: seq<PlanAction>, q: Policy, c: Connection)
    ensures AllAvoid(actions, q, c) <==> forall k :: 0 <= k < |actions| ==> ActionAvoids(actions[k], q, c)
  {
    if actions != [] {
      AvoidAll(actions[1..], q, c);
      assert forall k :: 0 <= k < |actions| - 1 ==> actions[1..][k] == actions[k + 1];
      if AllAvoid(actions, q, c) {
        forall k | 0 <= k < |actions| ensures ActionAvoids(actions[k], q, c) {
          assert k > 0 ==> actions[k] == actions[1..][k - 1];
        }
      }
    }
  }

  lemma {:induction false} ConnectionActionAvoids(s: Snapshot, p: Profile, q: Policy, c: Connection)
    requires c in s.connections
    ensures ActionAvoids(ConnectionAction(s, p, ConnectionChoice(s, p)), q, c)
  {
    NeededConnection(s, p);
  }

  /** A new policy is refused exactly when it would hang on what the default policy uses. */
  lemma {:induction false} PolicyActionAvoids(s: Snapshot, p: Profile, q: Policy, c: Connection)
    requires q in s.policies && !ConnectionChoice(s, p).Refuse?
    ensures ActionAvoids(PolicyAction(s, p, ReferenceAt(s, p), PolicyChoiceFor(s, p)), q, c)
            <==> (PolicyChoiceFor(s, p).Create? && ConnectionChoice(s, p).Reuse? ==>
                    ConnectionChoice(s, p).existing.id != q.id && ConnectionChoice(s, p).existing.id != c.id)
  {
    var ref := ReferenceAt(s, p).value;
    var a := PolicyAction(s, p, ReferenceAt(s, p), PolicyChoiceFor(s, p));
    FreePolicy(s, p);
    assert a.dependencies == [ref];
    if PolicyChoiceFor(s, p).Create? {
      assert q !in NamedPolicies(s, p);
    }
  }

  lemma {:induction false} AssignmentActionAvoids(s: Snapshot, p: Profile, d: Device, q: Policy, c: Connection)
    requires !PolicyChoiceFor(s, p).Refuse?
    ensures ActionAvoids(AssignmentAction(s, p, d, PolicyReferenceAt(s, p), AssignmentChoiceFor(s, p, d)), q, c)
            <==> (AssignmentChoiceFor(s, p, d).Assign? && PolicyChoiceFor(s, p).Reuse? ==>
                    PolicyChoiceFor(s, p).existing.id != q.id && PolicyChoiceFor(s, p).existing.id != c.id)
  {
    var a := AssignmentAction(s, p, d, PolicyReferenceAt(s, p), AssignmentChoiceFor(s, p, d));
    assert a.dependencies == [PolicyReferenceAt(s, p).value];
  }

  /** The two object actions of one profile are neither refused nor aimed at the default policy. */
  ghost predicate ProfileAllowed(s: Snapshot, p: Profile, q: Policy, c: Connection) {
    && !ConnectionChoice(s, p).Refuse? && !PolicyChoiceFor(s, p).Refuse?
    && ActionAvoids(ConnectionAction(s, p, ConnectionChoice(s, p)), q, c)
    && ActionAvoids(PolicyAction(s, p, ReferenceAt(s, p), PolicyChoiceFor(s, p)), q, c)
  }

  ghost predicate DeviceAllowed(s: Snapshot, p: Profile, d: Device, q: Policy, c: Connection) {
    && !AssignmentChoiceFor(s, p, d).RefuseAssignment?
    && ActionAvoids(AssignmentAction(s, p, d, PolicyReferenceAt(s, p), AssignmentChoiceFor(s, p, d)), q, c)
  }

  lemma {:induction false} ReadyByChoice(s: Snapshot, p: Profile)
    ensures ProfileReady(s, p) <==>
            match ConnectionChoice(s, p)
            case Create => PolicyChoiceFor(s, p).Create?
            case Reuse(c) =>
              PolicyChoiceFor(s, p).Reuse? || (PolicyChoiceFor(s, p).Create? && !Protected(s, c.id))
            case Refuse(_, _, _) => false
  {
    ProfileChoices(s, p);
    if ConnectionChoice(s, p).Reuse? {
      KeptReady(s, p, ConnectionChoice(s, p).existing);
    }
  }

  lemma {:induction false} KeptReady(s: Snapshot, p: Profile, c: Connection)
    requires ConnectionChoice(s, p) == Reuse(c)
    ensures ProfileReady(s, p)
            <==> PolicyChoiceFor(s, p).Reuse? || (PolicyChoiceFor(s, p).Create? && !Protected(s, c.id))
  {
    KeptConnection(s, p, c);
    NeededConnection(s, p);
    NeededPolicy(s, p, c.id);
    forall x ensures KeepsConnection(s, p, x) <==> x == c {
      KeptConnection(s, p, x);
    }
    forall q ensures KeepsPolicy(s, c.id, q) <==> PolicyChoiceFor(s, p) == Reuse(q) {
      KeptPolicy(s, p, c.id, q);
    }
    if PolicyChoiceFor(s, p).Reuse? {
      assert KeepsPolicy(s, c.id, PolicyChoiceFor(s, p).existing);
    }
  }

  lemma {:induction false} AllowedByChoice(s: Snapshot, p: Profile)
    requires Consistent(s) && s.defaultStatus.Known? && s.defaultRef.Some?
    ensures ProfileAllowed(s, p, DefaultPolicy(s), DefaultConnection(s)) <==>
            match ConnectionChoice(s, p)
            case Create => PolicyChoiceFor(s, p).Create?
            case Reuse(c) =>
              PolicyChoiceFor(s, p).Reuse? || (PolicyChoiceFor(s, p).Create? && !Protected(s, c.id))
            case Refuse(_, _, _) => false
  {
    ProtectedIds(s, if ConnectionChoice(s, p).Reuse? then ConnectionChoice(s, p).existing.id else "");
    ConnectionActionAvoids(s, p, DefaultPolicy(s), DefaultConnection(s));
    if !ConnectionChoice(s, p).Refuse? {
      PolicyActionAvoids(s, p, DefaultPolicy(s), DefaultConnection(s));
    }
    if ConnectionChoice(s, p).Create? {
      PolicyOnPlanned(s, p);
    }
  }

  lemma {:induction false} ReadyProfileIsAllowed(s: Snapshot, p: Profile)
    requires Consistent(s) && s.defaultStatus.Known? && s.defaultRef.Some?
    ensures ProfileReady(s, p) <==> ProfileAllowed(s, p, DefaultPolicy(s), DefaultConnection(s))
  {
    ReadyByChoice(s, p);
    AllowedByChoice(s, p);
  }

  lemma {:induction false} AssignmentFound(xs: seq<Assignment>, mac: string)
    requires forall i, j :: 0 <= i < j < |xs| ==> xs[i].mac != xs[j].mac
    ensures FindAssignment(xs, mac).None? <==> forall x :: x in xs ==> x.mac != mac
    ensures forall ref :: FindAssignment(xs, mac) == Some(Assignment(mac, ref)) <==> Assignment(mac, ref) in xs
  {
    if xs != [] {
      AssignmentFound(xs[1..], mac);
      assert xs == [xs[0]] + xs[1..];
      if xs[0].mac == mac {
        forall x | x in xs[1..] ensures x.mac != mac {
          var i :| 0 <= i < |xs[1..]| && xs[1..][i] == x;
          assert xs[i + 1] == x;
        }
      }
    }
  }

  lemma {:induction false} DeviceReadyByChoice(s: Snapshot, p: Profile, mac: string)
    ensures DeviceReady(s, p, mac) <==>
            if ConnectionChoice(s, p).Reuse? && PolicyChoiceFor(s, p).Reuse? then
              var id := PolicyChoiceFor(s, p).existing.id;
              (HasNoAssignment(s, mac) && !Protected(s, id)) || Assignment(mac, id) in s.assignments
            else HasNoAssignment(s, mac)
  {
    ProfileChoices(s, p);
    if ConnectionChoice(s, p).Reuse? && PolicyChoiceFor(s, p).Reuse? {
      assert KeepsBoth(s, p, ConnectionChoice(s, p).existing, PolicyChoiceFor(s, p).existing);
    }
  }

  lemma {:induction false} DeviceAllowedByChoice(s: Snapshot, p: Profile, d: Device)
    requires Consistent(s) && s.defaultStatus.Known? && s.defaultRef.Some?
    requires !ConnectionChoice(s, p).Refuse? && !PolicyChoiceFor(s, p).Refuse?
    ensures DeviceAllowed(s, p, d, DefaultPolicy(s), DefaultConnection(s)) <==>
            if PolicyChoiceFor(s, p).Reuse? then
              var id := PolicyChoiceFor(s, p).existing.id;
              (HasNoAssignment(s, d.mac) && !Protected(s, id)) || Assignment(d.mac, id) in s.assignments
            else HasNoAssignment(s, d.mac)
  {
    AssignmentActionAvoids(s, p, d, DefaultPolicy(s), DefaultConnection(s));
    ChosenAssignment(s, p, d);
    if PolicyChoiceFor(s, p).Reuse? {
      ProtectedIds(s, PolicyChoiceFor(s, p).existing.id);
    }
  }

  lemma {:induction false} ChosenByReference(s: Snapshot, d: Device, ref: Reference)
    requires forall i, j :: 0 <= i < j < |s.assignments| ==> s.assignments[i].mac != s.assignments[j].mac
    requires ref.kind.ExistingPolicy? ==> ref.value.Some?
    ensures ChooseAssignment(s, d, Some(ref)).Assign? <==> HasNoAssignment(s, d.mac)
    ensures ChooseAssignment(s, d, Some(ref)).Keep?
            <==> ref.kind.ExistingPolicy? && Assignment(d.mac, ref.value.value) in s.assignments
  {
    AssignmentFound(s.assignments, d.mac);
    FoundAssignment(s.assignments, d.mac);
  }

  lemma {:induction false} AssignmentsAreDistinct(s: Snapshot)
    requires Consistent(s)
    ensures forall i, j :: 0 <= i < j < |s.assignments| ==> s.assignments[i].mac != s.assignments[j].mac
  {
  }

  lemma {:induction false} ChosenAssignment(s: Snapshot, p: Profile, d: Device)
    requires Consistent(s) && !PolicyChoiceFor(s, p).Refuse?
    ensures var choice := AssignmentChoiceFor(s, p, d);
            && (choice.Assign? <==> HasNoAssignment(s, d.mac))
            && (choice.Keep? <==> PolicyChoiceFor(s, p).Reuse?
                                  && Assignment(d.mac, PolicyChoiceFor(s, p).existing.id) in s.assignments)
  {
    AssignmentsAreDistinct(s);
    ChosenByReference(s, d, PolicyReferenceAt(s, p).value);
  }

  lemma {:induction false} FoundAssignment(xs: seq<Assignment>, mac: string)
    ensures FindAssignment(xs, mac).Some? ==>
              FindAssignment(xs, mac) == Some(Assignment(mac, FindAssignment(xs, mac).value.policyRef))
  {
    if xs != [] {
      FoundAssignment(xs[1..], mac);
    }
  }

  lemma {:induction false} ReadyDeviceIsAllowed(s: Snapshot, p: Profile, d: Device)
    requires Consistent(s) && s.defaultStatus.Known? && s.defaultRef.Some?
    requires !ConnectionChoice(s, p).Refuse? && !PolicyChoiceFor(s, p).Refuse?
    ensures DeviceReady(s, p, d.mac) <==> DeviceAllowed(s, p, d, DefaultPolicy(s), DefaultConnection(s))
  {
    DeviceReadyByChoice(s, p, d.mac);
    DeviceAllowedByChoice(s, p, d);
    ProfileChoices(s, p);
  }

  /** The object actions avoid the default policy exactly when each of them does. */
  lemma {:induction false} ObjectsAvoid(s: Snapshot, ps: seq<Profile>, d: Option<Device>, q: Policy, c: Connection)
    requires ps != []
    ensures AllChosen(s, ps, d) && AllAvoid(ObjectActions(s, ps, d), q, c)
            <==> (forall p :: p in ps ==> ProfileAllowed(s, p, q, c))
                 && (d.Some? ==> DeviceAllowed(s, ps[0], d.value, q, c))
  {
    var actions := ObjectActions(s, ps, d);
    AvoidAll(actions, q, c);
    if AllChosen(s, ps, d) && AllAvoid(actions, q, c) {
      forall p | p in ps ensures ProfileAllowed(s, p, q, c) {
        var k :| 0 <= k < |ps| && ps[k] == p;
        ObjectAt(s, ps, d, k);
        ObjectAt(s, ps, d, |ps| + k);
      }
      if d.Some? {
        ObjectAt(s, ps, d, 2 * |ps|);
      }
    }
    if (forall p :: p in ps ==> ProfileAllowed(s, p, q, c)) && (d.Some? ==> DeviceAllowed(s, ps[0], d.value, q, c)) {
      forall k | 0 <= k < |actions| ensures ActionAvoids(actions[k], q, c) {
        ObjectAt(s, ps, d, k);
        if k < |ps| {
          assert ps[k] in ps;
        } else if k < 2 * |ps| {
          assert ps[k - |ps|] in ps;
        }
      }
    }
  }

  lemma {:induction false} ObjectAt(s: Snapshot, ps: seq<Profile>, d: Option<Device>, k: nat)
    requires ps != [] && k < 2 * |ps| + (if d.Some? then 1 else 0)
    ensures |ObjectActions(s, ps, d)| == 2 * |ps| + (if d.Some? then 1 else 0)
    ensures ObjectActions(s, ps, d)[k] ==
            if k < |ps| then ConnectionAction(s, ps[k], ConnectionChoice(s, ps[k]))
            else if k < 2 * |ps| then
              PolicyAction(s, ps[k - |ps|], ReferenceAt(s, ps[k - |ps|]), PolicyChoiceFor(s, ps[k - |ps|]))
            else AssignmentAction(s, ps[0], d.value, PolicyReferenceAt(s, ps[0]),
                                  AssignmentChoiceFor(s, ps[0], d.value))
  {
    RenderedAt(s, ps, d, true, k);
  }

  // ---- The plan ----

  lemma {:induction false} ReadyIsAllowed(s: Snapshot, ps: seq<Profile>, d: Option<Device>)
    requires ps != [] && Consistent(s) && s.defaultStatus.Known? && s.defaultRef.Some?
    ensures (forall p :: p in ps ==> ProfileReady(s, p)) && (d.Some? ==> DeviceReady(s, ps[0], d.value.mac))
            <==> AllChosen(s, ps, d)
                 && AllAvoid(ObjectActions(s, ps, d), DefaultPolicy(s), DefaultConnection(s))
  {
    var q, c := DefaultPolicy(s), DefaultConnection(s);
    ObjectsAvoid(s, ps, d, q, c);
    forall p | p in ps ensures ProfileReady(s, p) <==> ProfileAllowed(s, p, q, c) {
      ReadyProfileIsAllowed(s, p);
    }
    assert ps[0] in ps;
    if d.Some? && ProfileAllowed(s, ps[0], q, c) {
      ReadyDeviceIsAllowed(s, ps[0], d.value);
    }
  }

  /** A plan may go ahead exactly when the records say so. */
  lemma {:induction false} PlanGoesAheadIff(s: Snapshot, ps: seq<Profile>, d: Option<Device>)
    requires ps != [] && Consistent(s)
    ensures PlanFor(s, ps, d).status.HardwarePending? <==> Plannable(s, ps, d)
    ensures PlanFor(s, ps, d).status.Blocked? <==> !Plannable(s, ps, d)
  {
    if s.defaultStatus.Known? && s.defaultRef.Some? {
      ReadyIsAllowed(s, ps, d);
    }
  }

  /** No id the plan has to name is empty: those of the kept connections, and of the kept policy a device is on. */
  ghost predicate IdsAreNamed(s: Snapshot, ps: seq<Profile>, d: Option<Device>)
    requires ps != []
  {
    && (forall p, c :: p in ps && KeepsConnection(s, p, c) ==> c.id != "")
    && (d.Some? ==> forall c, q :: KeepsBoth(s, ps[0], c, q) ==> q.id != "")
  }

  lemma {:induction false} NamedByChoice(s: Snapshot, p: Profile)
    ensures NamedReference(ReferenceAt(s, p)) <==> forall c :: KeepsConnection(s, p, c) ==> c.id != ""
    ensures NamedReference(PolicyReferenceAt(s, p)) <==> forall c, q :: KeepsBoth(s, p, c, q) ==> q.id != ""
  {
    ProfileChoices(s, p);
    if ConnectionChoice(s, p).Reuse? {
      assert KeepsConnection(s, p, ConnectionChoice(s, p).existing);
    }
    if PolicyChoiceFor(s, p).Reuse? {
      assert KeepsBoth(s, p, ConnectionChoice(s, p).existing, PolicyChoiceFor(s, p).existing);
    }
  }

  /** A plan is emitted, rather than refused by its own validator, exactly when those ids are there. */
  lemma {:induction false} PlanIsEmittedIff(s: Snapshot, ps: seq<Profile>, d: Option<Device>)
    requires Normal(ps) && NormalDevice(d) && Consistent(s)
    ensures NamedReferences(s, ps, d) <==> IdsAreNamed(s, ps, d)
    ensures Integrity(PlanFor(s, ps, d)) <==> IdsAreNamed(s, ps, d)
  {
    BuiltPlanIntegrity(s, ps, d);
    forall p | p in ps
      ensures NamedReference(ReferenceAt(s, p)) <==> forall c :: KeepsConnection(s, p, c) ==> c.id != ""
    {
      NamedByChoice(s, p);
    }
    NamedByChoice(s, ps[0]);
  }

  // ---- What happens to each object, whether or not the plan may go ahead ----

  ghost predicate SeveralConnections(s: Snapshot, p: Profile) {
    exists c, x :: IsConnectionOf(s, p, c) && IsConnectionOf(s, p, x) && c != x
  }

  ghost predicate SeveralPolicies(s: Snapshot, connectionId: string) {
    exists q, x :: IsPolicyOn(s, connectionId, q) && IsPolicyOn(s, connectionId, x) && q != x
  }

  /** The connection that has the profile's name, letter case aside. */
  predicate IsNamesake(s: Snapshot, p: Profile, c: Connection) {
    c in s.connections && c.name.folded == "routerkit-socks-" + IntText(p.port)
  }

  predicate IsPolicyNamesake(s: Snapshot, p: Profile, q: Policy) {
    q in s.policies && q.name.folded == "routerkit-policy-" + IntText(p.port)
  }

  predicate Kept(a: PlanAction) {
    a.operation.ReuseConnection? || a.operation.ReusePolicy? || a.operation.ReuseAssignment?
  }

  /** Whatever is not merely kept demands a fresh snapshot and a backup. */
  predicate Secured(s: Snapshot, p: Profile, a: PlanAction) {
    && a.slot == Some(p.slot) && a.endpoint == Some(Endpoint(p.host, p.port))
    && a.backupRequired == !Kept(a) && a.freshSnapshot == (if Kept(a) then None else Some(!s.stale))
  }

  /** Whom a connection action is about, and what it proposes. */
  predicate ConnectionShown(s: Snapshot, p: Profile, a: PlanAction) {
    && Secured(s, p, a) && a.id == ConnectionStep(p.slot) && a.objectType.ConnectionObject? && a.dependencies == []
    && a.target == Name("RouterKit-SOCKS-" + IntText(p.port), "routerkit-socks-" + IntText(p.port))
    && (a.operation.CreateConnection? ==>
          a.proposed == ProposedConnection(p.protocol, p.host, p.port, p.authMode, p.enabled))
  }

  /** A policy action depends on the kept connection, or on the one planned for the same profile. */
  ghost predicate PolicyShown(s: Snapshot, p: Profile, a: PlanAction) {
    && Secured(s, p, a) && a.id == PolicyStep(p.slot) && a.objectType.PolicyObject?
    && a.target == Name("RouterKit-Policy-" + IntText(p.port), "routerkit-policy-" + IntText(p.port))
    && (a.operation.CreatePolicy? ==> a.proposed == ProposedPolicy("proxy_only", false))
    && (forall c :: KeepsConnection(s, p, c) ==>
          a.dependencies == [Reference(ExistingConnection, Some(c.id), None)])
    && (NeedsConnection(s, p) ==> a.dependencies == [Reference(PlannedConnection, None, Some(p.slot))])
  }

  /** An assignment depends on the kept policy, or on the one planned for the primary profile. */
  ghost predicate DeviceShown(s: Snapshot, p: Profile, policy: PlanAction, a: PlanAction) {
    && Secured(s, p, a) && a.id.AssignmentStep? && a.objectType.AssignmentObject?
    && (forall c, q :: KeepsBoth(s, p, c, q) ==> a.dependencies == [Reference(ExistingPolicy, Some(q.id), None)])
    && (policy.operation.CreatePolicy? ==> a.dependencies == [Reference(PlannedPolicy, None, Some(p.slot))])
  }

  /** Reused if there is just the one, created if there is none and nothing stands in the way, else in conflict. */
  ghost predicate ConnectionDecided(s: Snapshot, p: Profile, a: PlanAction) {
    && ConnectionShown(s, p, a)
    && (a.operation.CreateConnection? <==> NeedsConnection(s, p))
    && (a.operation.ReuseConnection? <==> exists c :: KeepsConnection(s, p, c))
    && (forall c :: KeepsConnection(s, p, c) ==> a.observedId == Some(c.id) && a.observedName == Some(c.name))
    && (a.operation.CreateConnection? || a.operation.ReuseConnection? ==> a.reason.None?)
    && (!a.operation.CreateConnection? && !a.operation.ReuseConnection? ==>
          a.operation.Conflict? && ConnectionConflict(s, p, a.reason))
  }

  ghost predicate ConnectionConflict(s: Snapshot, p: Profile, reason: Option<Reason>) {
    && (reason == Some(MultipleConnections) <==> SeveralConnections(s, p))
    && (reason == Some(ConnectionIdCollision) <==> !SeveralConnections(s, p) && ConnectionNameIsFree(s, p))
    && (forall c :: !SeveralConnections(s, p) && IsNamesake(s, p, c) ==>
          reason == Some(if c.complete then DifferentConnection else IncompleteConnection))
  }

  lemma {:induction false} NotOneIsNoneOrSeveral(s: Snapshot, p: Profile)
    ensures SeveralConnections(s, p) <==> |ExactConnections(s, p)| > 1
  {
    var exact := ExactConnections(s, p);
    forall x ensures IsConnectionOf(s, p, x) <==> x in exact {
      CarriesIsEquivalent(s, p, x);
    }
    SeveralMembers(exact);
  }

  lemma {:induction false} SeveralMembers<T>(xs: set<T>)
    ensures |xs| > 1 <==> exists x, y :: x in xs && y in xs && x != y
  {
    if x, y :| x in xs && y in xs && x != y {
      TwoMembers(xs, x, y);
    } else if |xs| > 1 {
      var x := Pick(xs);
      SingletonPick(xs, x);
    }
  }

  lemma {:induction false} PickedNamesake(s: Snapshot, p: Profile)
    requires ConnectionsDistinct(s.connections)
    ensures ConnectionNameIsFree(s, p) <==> NamedConnections(s, p) == {}
    ensures forall c :: IsNamesake(s, p, c) ==> NamedConnections(s, p) != {} && Pick(NamedConnections(s, p)) == c
  {
    var named := NamedConnections(s, p);
    if !ConnectionNameIsFree(s, p) {
      var c :| c in s.connections && c.name.folded == "routerkit-socks-" + IntText(p.port);
      assert c in named;
    }
    forall c | IsNamesake(s, p, c) ensures named != {} && Pick(named) == c {
      assert c in named;
      SameConnection(s.connections, Pick(named), c);
    }
  }

  lemma {:induction false} DecidedConnection(s: Snapshot, p: Profile)
    requires ConnectionsDistinct(s.connections)
    ensures ConnectionDecided(s, p, ConnectionAction(s, p, ConnectionChoice(s, p)))
  {
    NeededConnection(s, p);
    forall c ensures KeepsConnection(s, p, c) <==> ConnectionChoice(s, p) == Reuse(c) {
      KeptConnection(s, p, c);
    }
    NotOneIsNoneOrSeveral(s, p);
    PickedNamesake(s, p);
    if ConnectionChoice(s, p).Reuse? {
      assert KeepsConnection(s, p, ConnectionChoice(s, p).existing);
    }
  }

  /** The policy of a profile whose connection is kept: reused, created or in conflict, in the same order of cases. */
  ghost predicate PolicyDecidedOn(s: Snapshot, p: Profile, connectionId: string, a: PlanAction) {
    && (a.operation.CreatePolicy? <==> NeedsPolicyOn(s, p, connectionId))
    && (a.operation.ReusePolicy? <==> exists q :: KeepsPolicy(s, connectionId, q))
    && (forall q :: KeepsPolicy(s, connectionId, q) ==> a.observedId == Some(q.id) && a.observedName == Some(q.name))
    && (!a.operation.CreatePolicy? && !a.operation.ReusePolicy? ==>
          && a.operation.Conflict?
          && (a.reason == Some(MultiplePolicies) <==> SeveralPolicies(s, connectionId))
          && (!SeveralPolicies(s, connectionId) ==> PolicyConflict(s, p, a.reason)))
  }

  /** The policy of a profile whose connection is new. */
  ghost predicate PolicyDecidedOnNew(s: Snapshot, p: Profile, a: PlanAction) {
    if PolicyIsFree(s, p) then a.operation.CreatePolicy? else a.operation.Conflict? && PolicyConflict(s, p, a.reason)
  }

  ghost predicate PolicyConflict(s: Snapshot, p: Profile, reason: Option<Reason>) {
    && (reason == Some(PolicyIdCollision) <==> PolicyNameIsFree(s, p))
    && (forall q :: IsPolicyNamesake(s, p, q) ==>
          reason == Some(if Some(q.id) == s.defaultRef || q.isDefault then DefaultImmutable
                         else if q.complete then DifferentPolicy else IncompletePolicy))
  }

  /** A profile without a connection has no policy either. */
  ghost predicate PolicyDecided(s: Snapshot, p: Profile, a: PlanAction) {
    && PolicyShown(s, p, a)
    && (forall c :: KeepsConnection(s, p, c) ==> PolicyDecidedOn(s, p, c.id, a))
    && (NeedsConnection(s, p) ==> PolicyDecidedOnNew(s, p, a))
    && (!NeedsConnection(s, p) && (forall c :: !KeepsConnection(s, p, c)) ==>
          a.operation.BlockedStep? && a.reason == Some(NoConnectionDependency))
  }

  lemma {:induction false} PickedPolicyNamesake(s: Snapshot, p: Profile)
    requires PoliciesDistinct(s.policies)
    ensures PolicyNameIsFree(s, p) <==> NamedPolicies(s, p) == {}
    ensures forall q :: IsPolicyNamesake(s, p, q) ==> NamedPolicies(s, p) != {} && Pick(NamedPolicies(s, p)) == q
  {
    var named := NamedPolicies(s, p);
    if !PolicyNameIsFree(s, p) {
      var q :| q in s.policies && q.name.folded == "routerkit-policy-" + IntText(p.port);
      assert q in named;
    }
    forall q | IsPolicyNamesake(s, p, q) ensures named != {} && Pick(named) == q {
      assert q in named;
      SamePolicy(s.policies, Pick(named), q);
    }
  }

  lemma {:induction false} PoliciesOnKept(s: Snapshot, p: Profile, id: string)
    ensures SeveralPolicies(s, id) <==> |ExactPolicies(s, ExistingReference(ExistingConnection, id))| > 1
  {
    var exact := ExactPolicies(s, ExistingReference(ExistingConnection, id));
    forall x ensures IsPolicyOn(s, id, x) <==> x in exact {
    }
    SeveralMembers(exact);
  }

  lemma {:induction false} DecidedPolicyOn(s: Snapshot, p: Profile, id: string)
    requires PoliciesDistinct(s.policies)
    ensures var ref := Some(ExistingReference(ExistingConnection, id));
            PolicyDecidedOn(s, p, id, PolicyAction(s, p, ref, PolicyChoice(s, p, ref)))
  {
    var choice := PolicyChoice(s, p, Some(ExistingReference(ExistingConnection, id)));
    NeededPolicy(s, p, id);
    forall q ensures KeepsPolicy(s, id, q) <==> choice == Reuse(q) {
      KeptPolicy(s, p, id, q);
    }
    PoliciesOnKept(s, p, id);
    PickedPolicyNamesake(s, p);
    if choice.Reuse? {
      assert KeepsPolicy(s, id, choice.existing);
    }
  }

  lemma {:induction false} DecidedPolicyOnNew(s: Snapshot, p: Profile)
    requires PoliciesDistinct(s.policies)
    ensures var ref := Some(PlannedReference(PlannedConnection, p.slot));
            PolicyDecidedOnNew(s, p, PolicyAction(s, p, ref, PolicyChoice(s, p, ref)))
  {
    PolicyOnPlanned(s, p);
    FreePolicy(s, p);
    PickedPolicyNamesake(s, p);
  }

  lemma {:induction false} ShownPolicy(s: Snapshot, p: Profile)
    ensures PolicyShown(s, p, PolicyAction(s, p, ReferenceAt(s, p), PolicyChoiceFor(s, p)))
  {
    NeededConnection(s, p);
    forall c ensures KeepsConnection(s, p, c) <==> ConnectionChoice(s, p) == Reuse(c) {
      KeptConnection(s, p, c);
    }
  }

  lemma {:induction false} ShownDevice(s: Snapshot, p: Profile, d: Device)
    ensures DeviceShown(s, p, PolicyAction(s, p, ReferenceAt(s, p), PolicyChoiceFor(s, p)),
                        AssignmentAction(s, p, d, PolicyReferenceAt(s, p), AssignmentChoiceFor(s, p, d)))
  {
    ProfileChoices(s, p);
  }

  lemma {:induction false} DecidedPolicy(s: Snapshot, p: Profile)
    requires PoliciesDistinct(s.policies)
    ensures PolicyDecided(s, p, PolicyAction(s, p, ReferenceAt(s, p), PolicyChoiceFor(s, p)))
  {
    ShownPolicy(s, p);
    NeededConnection(s, p);
    DecidedPolicyOnNew(s, p);
    forall c ensures KeepsConnection(s, p, c) <==> ConnectionChoice(s, p) == Reuse(c) {
      KeptConnection(s, p, c);
    }
    forall c | KeepsConnection(s, p, c) {
      DecidedPolicyOn(s, p, c.id);
    }
    if ConnectionChoice(s, p).Reuse? {
      assert KeepsConnection(s, p, ConnectionChoice(s, p).existing);
    }
  }

  /** The device keeps its assignment if it is already on the kept policy, gets one if it has none, and is never
      moved. */
  ghost predicate DeviceDecided(s: Snapshot, p: Profile, mac: string, policy: PlanAction, a: PlanAction) {
    var refused := policy.operation.Conflict? || policy.operation.BlockedStep?;
    && DeviceShown(s, p, policy, a)
    && (a.operation.ReuseAssignment?
        <==> exists c, q :: KeepsBoth(s, p, c, q) && Assignment(mac, q.id) in s.assignments)
    && (a.operation.AssignDevice? <==> !refused && HasNoAssignment(s, mac))
    && (!a.operation.ReuseAssignment? && !a.operation.AssignDevice? ==>
          && a.operation.BlockedStep?
          && (a.reason == Some(NoPolicyDependency) <==> refused)
          && (forall x :: !refused && x in s.assignments && x.mac == mac ==>
                a.reason == Some(if Some(x.policyRef) == s.defaultRef then AssignedToDefault
                                 else MoveOutsideContract)))
  }

  lemma {:induction false} RefusedAssignment(s: Snapshot, d: Device, ref: Option<Reference>, x: Assignment)
    requires forall i, j :: 0 <= i < j < |s.assignments| ==> s.assignments[i].mac != s.assignments[j].mac
    requires x in s.assignments && x.mac == d.mac && ref.Some? && ChooseAssignment(s, d, ref).RefuseAssignment?
    ensures ChooseAssignment(s, d, ref).reason
            == if Some(x.policyRef) == s.defaultRef then AssignedToDefault else MoveOutsideContract
  {
    AssignmentFound(s.assignments, d.mac);
    assert x == Assignment(d.mac, x.policyRef);
  }

  lemma {:induction false} DecidedDevice(s: Snapshot, p: Profile, d: Device)
    requires forall i, j :: 0 <= i < j < |s.assignments| ==> s.assignments[i].mac != s.assignments[j].mac
    ensures DeviceDecided(s, p, d.mac, PolicyAction(s, p, ReferenceAt(s, p), PolicyChoiceFor(s, p)),
                          AssignmentAction(s, p, d, PolicyReferenceAt(s, p), AssignmentChoiceFor(s, p, d)))
  {
    ProfileChoices(s, p);
    ShownDevice(s, p, d);
    if PolicyReferenceAt(s, p).Some? {
      ChosenByReference(s, d, PolicyReferenceAt(s, p).value);
      forall x | x in s.assignments && x.mac == d.mac && AssignmentChoiceFor(s, p, d).RefuseAssignment?
        ensures AssignmentChoiceFor(s, p, d).reason
                == if Some(x.policyRef) == s.defaultRef then AssignedToDefault else MoveOutsideContract
      {
        RefusedAssignment(s, d, PolicyReferenceAt(s, p), x);
      }
    }
    if PolicyChoiceFor(s, p).Reuse? {
      assert KeepsBoth(s, p, ConnectionChoice(s, p).existing, PolicyChoiceFor(s, p).existing);
    }
  }

  /** What object action k is about, and what is decided. */
  ghost predicate ObjectDecided(s: Snapshot, ps: seq<Profile>, d: Option<Device>, actions: seq<PlanAction>, k: nat)
    requires 0 < |ps| <= |actions|
  {
    k < |actions| &&
    if k < |ps| then ConnectionDecided(s, ps[k], actions[k])
    else if k < 2 * |ps| then PolicyDecided(s, ps[k - |ps|], actions[k])
    else d.Some? && DeviceDecided(s, ps[0], d.value.mac, actions[|ps|], actions[k])
  }

  lemma {:induction false} PlannedObject(s: Snapshot, ps: seq<Profile>, d: Option<Device>, k: nat)
    requires ps != [] && Consistent(s) && k < 2 * |ps| + (if d.Some? then 1 else 0)
    ensures k < |PlannedActions(s, ps, d)|
    ensures PlannedActions(s, ps, d)[k].(readiness := Blocked) ==
            (if k < |ps| then ConnectionAction(s, ps[k], ConnectionChoice(s, ps[k]))
             else if k < 2 * |ps| then
               PolicyAction(s, ps[k - |ps|], ReferenceAt(s, ps[k - |ps|]), PolicyChoiceFor(s, ps[k - |ps|]))
             else AssignmentAction(s, ps[0], d.value, PolicyReferenceAt(s, ps[0]),
                                   AssignmentChoiceFor(s, ps[0], d.value))).(readiness := Blocked)
  {
    PlannedSize(s, ps, d);
    ObjectAt(s, ps, d, k);
    PlannedFromRendered(s, ps, d, k);
  }

  predicate SameAside(a: PlanAction, b: PlanAction) {
    a.(readiness := Blocked) == b.(readiness := Blocked)
  }

  lemma {:induction false} ReadinessAside(s: Snapshot, p: Profile, a: PlanAction, b: PlanAction)
    requires SameAside(a, b)
    ensures ConnectionDecided(s, p, a) ==> ConnectionDecided(s, p, b)
    ensures PolicyDecided(s, p, a) ==> PolicyDecided(s, p, b)
  {
  }

  lemma {:induction false} ConnectionDecidedAt(s: Snapshot, ps: seq<Profile>, d: Option<Device>, k: nat)
    requires ps != [] && Consistent(s) && k < |ps|
    ensures k < |PlannedActions(s, ps, d)| && ConnectionDecided(s, ps[k], PlannedActions(s, ps, d)[k])
  {
    PlannedObject(s, ps, d, k);
    DecidedConnection(s, ps[k]);
    ReadinessAside(s, ps[k], ConnectionAction(s, ps[k], ConnectionChoice(s, ps[k])), PlannedActions(s, ps, d)[k]);
  }

  lemma {:induction false} DecidedPolicyAside(s: Snapshot, p: Profile, a: PlanAction)
    requires Consistent(s)
    requires SameAside(PolicyAction(s, p, ReferenceAt(s, p), PolicyChoiceFor(s, p)), a)
    ensures PolicyDecided(s, p, a)
  {
    DecidedPolicy(s, p);
    ReadinessAside(s, p, PolicyAction(s, p, ReferenceAt(s, p), PolicyChoiceFor(s, p)), a);
  }

  lemma {:induction false} PolicyDecidedAt(s: Snapshot, ps: seq<Profile>, d: Option<Device>, k: nat)
    requires ps != [] && Consistent(s) && |ps| <= k < 2 * |ps|
    ensures k < |PlannedActions(s, ps, d)| && PolicyDecided(s, ps[k - |ps|], PlannedActions(s, ps, d)[k])
  {
    PlannedObject(s, ps, d, k);
    DecidedPolicyAside(s, ps[k - |ps|], PlannedActions(s, ps, d)[k]);
  }

  lemma {:induction false} DeviceReadinessAside(
    s: Snapshot, p: Profile, mac: string, policy: PlanAction, policy': PlanAction, a: PlanAction, b: PlanAction)
    requires SameAside(a, b) && SameAside(policy, policy') && DeviceDecided(s, p, mac, policy, a)
    ensures DeviceDecided(s, p, mac, policy', b)
  {
  }

  lemma {:induction false} DeviceDecidedAt(s: Snapshot, ps: seq<Profile>, d: Device)
    requires ps != [] && Consistent(s)
    ensures var actions := PlannedActions(s, ps, Some(d));
            2 * |ps| < |actions| && DeviceDecided(s, ps[0], d.mac, actions[|ps|], actions[2 * |ps|])
  {
    var actions := PlannedActions(s, ps, Some(d));
    PlannedObject(s, ps, Some(d), |ps|);
    PlannedObject(s, ps, Some(d), 2 * |ps|);
    AssignmentsAreDistinct(s);
    DecidedDevice(s, ps[0], d);
    DeviceReadinessAside(
      s, ps[0], d.mac, PolicyAction(s, ps[0], ReferenceAt(s, ps[0]), PolicyChoiceFor(s, ps[0])), actions[|ps|],
      AssignmentAction(s, ps[0], d, PolicyReferenceAt(s, ps[0]), AssignmentChoiceFor(s, ps[0], d)),
      actions[2 * |ps|]);
  }

  lemma {:induction false} PlanActions(s: Snapshot, ps: seq<Profile>, d: Option<Device>)
    requires ps != [] && Consistent(s)
    ensures PlanFor(s, ps, d).actions == PlannedActions(s, ps, d)
    ensures |PlannedActions(s, ps, d)| >= 2 * |ps| + (if d.Some? then 1 else 0)
  {
    PlannedIds(s, ps, d);
  }

  lemma {:induction false} ConnectionIsObject(
    s: Snapshot, ps: seq<Profile>, d: Option<Device>, actions: seq<PlanAction>, k: nat)
    requires k < |ps| <= |actions| && ConnectionDecided(s, ps[k], actions[k])
    ensures ObjectDecided(s, ps, d, actions, k)
  {
  }

  lemma {:induction false} PolicyIsObject(
    s: Snapshot, ps: seq<Profile>, d: Option<Device>, actions: seq<PlanAction>, k: nat)
    requires |ps| <= k < 2 * |ps| && k < |actions| && PolicyDecided(s, ps[k - |ps|], actions[k])
    ensures ObjectDecided(s, ps, d, actions, k)
  {
  }

  lemma {:induction false} DeviceIsObject(
    s: Snapshot, ps: seq<Profile>, d: Option<Device>, actions: seq<PlanAction>, k: nat)
    requires 0 < |ps| && k == 2 * |ps| < |actions| && d.Some?
    requires DeviceDecided(s, ps[0], d.value.mac, actions[|ps|], actions[k])
    ensures ObjectDecided(s, ps, d, actions, k)
  {
  }

  lemma {:induction false} PlannedObjectIsDecided(s: Snapshot, ps: seq<Profile>, d: Option<Device>, k: nat)
    requires ps != [] && Consistent(s) && k < 2 * |ps| + (if d.Some? then 1 else 0)
    requires |ps| <= |PlannedActions(s, ps, d)|
    ensures ObjectDecided(s, ps, d, PlannedActions(s, ps, d), k)
  {
    var actions := PlannedActions(s, ps, d);
    if k < |ps| {
      ConnectionDecidedAt(s, ps, d, k);
      ConnectionIsObject(s, ps, d, actions, k);
    } else if k < 2 * |ps| {
      PolicyDecidedAt(s, ps, d, k);
      PolicyIsObject(s, ps, d, actions, k);
    } else {
      DeviceDecidedAt(s, ps, d.value);
      DeviceIsObject(s, ps, d, actions, k);
    }
  }

  /** Which operation each object gets, and why, in terms of the records, whether or not the plan is blocked. */
  lemma {:induction false} EveryObjectIsDecided(s: Snapshot, ps: seq<Profile>, d: Option<Device>, k: nat)
    requires ps != [] && Consistent(s) && k < 2 * |ps| + (if d.Some? then 1 else 0)
    ensures |ps| <= |PlanFor(s, ps, d).actions| && ObjectDecided(s, ps, d, PlanFor(s, ps, d).actions, k)
  {
    PlanActions(s, ps, d);
    PlannedObjectIsDecided(s, ps, d, k);
  }

  /** Every action of a blocked plan is blocked; otherwise what is kept is ready, and the rest waits for hardware. */
  lemma {:induction false} EveryReadiness(s: Snapshot, ps: seq<Profile>, d: Option<Device>, k: nat)
    requires ps != [] && Consistent(s) && k < |PlanFor(s, ps, d).actions|
    ensures var plan := PlanFor(s, ps, d);
            plan.actions[k].readiness == if plan.status.Blocked? then Blocked
                                         else if Kept(plan.actions[k]) then PlanReady else HardwarePending
  {
    if !PlanBlocked(s, ps, d) {
      RenderedAt(s, ps, d, true, k);
      UnblockedReadiness(s, ps, d, k);
    }
  }

  lemma {:induction false} UnblockedReadiness(s: Snapshot, ps: seq<Profile>, d: Option<Device>, k: nat)
    requires ps != [] && AllChosen(s, ps, d) && k < |Rendered(s, ps, d, true)|
    ensures var a := Rendered(s, ps, d, true)[k];
            a.readiness == if Kept(a) then PlanReady else HardwarePending
  {
    RenderedAt(s, ps, d, true, k);
    if k < |ps| {
      assert ps[k] in ps;
    } else if k < 2 * |ps| {
      assert ps[k - |ps|] in ps;
    }
  }

  /** The default projection is the default policy itself and the connection it uses. */
  lemma {:induction false} ProjectionShows(s: Snapshot)
    requires Consistent(s)
    ensures var x := DefaultProjection(s);
            && x.status == s.defaultStatus && x.defaultRef == s.defaultRef
            && (!s.defaultStatus.Known? || s.defaultRef.None? ==> x.policy.None? && x.connection.None?)
            && (s.defaultStatus.Known? && s.defaultRef.Some? ==>
                  && x.policy.Some? && x.policy.value in s.policies && x.policy.value.isDefault
                  && Some(x.policy.value.id) == s.defaultRef
                  && x.connection.Some? && x.connection.value in s.connections
                  && x.connection.value.id == x.policy.value.connectionRef)
  {
    if s.defaultStatus.Known? && s.defaultRef.Some? {
      var q := DefaultPolicy(s);
      FoundPolicy(s.policies, s.defaultRef.value);
      FoundConnection(s.connections, q.connectionRef);
      ObservedDefaultMembers(s.policies, q);
    }
  }

  // ---- An instance that creates ----

  const PRIMARY := Profile(1, "primary", "127.0.0.1", 1082, true, SOCKS5, NO_AUTH)
  const ISP := Connection("ISP", Name("ISP", "isp"), "pppoe", "", 0, NO_AUTH, true, true)
  const DEFAULT_POLICY := Policy("Policy0", Name("Default", "default"), "ISP", "default", true, true, false)
  const ONLINE := Snapshot("s", SUPPORTED, false, Known, Some("Policy0"), [ISP], [DEFAULT_POLICY], [], [])

  lemma {:induction false} OnlineIsConsistent()
    ensures Normal([PRIMARY]) && Consistent(ONLINE)
  {
    assert FindPolicy(ONLINE.policies, "Policy0") == Some(DEFAULT_POLICY);
    assert ObservedDefaults(ONLINE.policies) == [DEFAULT_POLICY];
    assert FindConnection(ONLINE.connections, "ISP") == Some(ISP);
  }

  lemma {:induction false} DifferentStart(a: string, b: string, text: string)
    requires a != "" && b != "" && a[0] != b[0]
    ensures a != b + text
  {
    assert (b + text)[0] == b[0];
  }

  lemma {:induction false} OnlineIsFree()
    ensures NeedsConnection(ONLINE, PRIMARY) && PolicyIsFree(ONLINE, PRIMARY)
  {
    DifferentStart("ISP", "simulation:connection:slot-", IntText(1));
    DifferentStart("Policy0", "simulation:connection:slot-", IntText(1));
    DifferentStart("ISP", "simulation:policy:slot-", IntText(1));
    DifferentStart("Policy0", "simulation:policy:slot-", IntText(1));
    DifferentStart("isp", "routerkit-socks-", IntText(1082));
    DifferentStart("default", "routerkit-policy-", IntText(1082));
  }

  /** An instance: on a router with one uplink and a known default policy on it, a profile's connection and policy are
      both created. */
  lemma {:induction false} OnlineRouterIsExtended()
    ensures Normal([PRIMARY]) && Consistent(ONLINE)
    ensures var plan := PlanFor(ONLINE, [PRIMARY], None);
            && plan.status.HardwarePending? && |plan.actions| >= 2
            && plan.actions[0].operation.CreateConnection? && plan.actions[1].operation.CreatePolicy?
  {
    OnlineIsConsistent();
    OnlineIsFree();
    PlanGoesAheadIff(ONLINE, [PRIMARY], None);
    EveryObjectIsDecided(ONLINE, [PRIMARY], None, 0);
    EveryObjectIsDecided(ONLINE, [PRIMARY], None, 1);
  }
}
