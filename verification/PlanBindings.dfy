/** What an unrefused plan binds each profile to: one connection and one policy, kept or new. */
module PlanBindings {
  import opened Wrappers
  import opened PlanModel
  import opened PlanBuilder
  import opened Sets
  import opened PlanExecution

  datatype Binding = Binding(connection: Connection, newConnection: bool, policy: Policy, newPolicy: bool)

  /** The connection is the profile's only exact match once it is in place. */
  ghost predicate ConnectionFits(s: Snapshot, p: Profile, c: Connection, isNew: bool) {
    && ConnectionEquivalent(c, p)
    && (forall x :: x in s.connections && ConnectionEquivalent(x, p) ==> x == c)
    && (isNew <==> c !in s.connections)
    && (isNew ==> forall x :: x in s.connections ==> x.id != c.id && x.name.folded != c.name.folded)
  }

  /** The policy is the only exact match for the bound connection once it is in place. */
  ghost predicate PolicyFits(s: Snapshot, connectionId: string, q: Policy, isNew: bool) {
    && PolicyEquivalent(q, connectionId)
    && (forall x :: x in s.policies && PolicyEquivalent(x, connectionId) ==> x == q)
    && (isNew <==> q !in s.policies)
    && (isNew ==> forall x :: x in s.policies ==> x.id != q.id && x.name.folded != q.name.folded)
  }

  ghost predicate Fits(s: Snapshot, p: Profile, b: Binding) {
    ConnectionFits(s, p, b.connection, b.newConnection) && PolicyFits(s, b.connection.id, b.policy, b.newPolicy)
  }

  /** Two profiles never share a connection, and two new objects never share an identity or a name. */
  ghost predicate Apart(a: Binding, b: Binding) {
    && a.connection.id != b.connection.id
    && (a.newConnection && b.newConnection ==> a.connection.name.folded != b.connection.name.folded)
    && (a.newPolicy && b.newPolicy ==> a.policy.id != b.policy.id && a.policy.name.folded != b.policy.name.folded)
  }

  ghost predicate Bound(s: Snapshot, ps: seq<Profile>, bs: seq<Binding>) {
    && Normal(ps) && Consistent(s) && |bs| == |ps|
    && (forall k :: 0 <= k < |ps| ==> Fits(s, ps[k], bs[k]))
    && (forall k, l :: 0 <= k < l < |ps| ==> Apart(bs[k], bs[l]))
  }

  // ---- The bindings the planner's choices amount to ----

  ghost function BoundConnection(s: Snapshot, p: Profile): Connection {
    var choice := ConnectionChoice(s, p);
    if choice.Reuse? then choice.existing else CreatedConnection(p, ConnectionName(p))
  }

  ghost function BoundPolicy(s: Snapshot, p: Profile): Policy {
    var choice := PolicyChoiceFor(s, p);
    if choice.Reuse? then choice.existing else CreatedPolicy(p, PolicyName(p), BoundConnection(s, p).id)
  }

  ghost function BindingOf(s: Snapshot, p: Profile): Binding {
    Binding(BoundConnection(s, p), ConnectionChoice(s, p).Create?, BoundPolicy(s, p), PolicyChoiceFor(s, p).Create?)
  }

  ghost function BindingsOf(s: Snapshot, ps: seq<Profile>): (bs: seq<Binding>)
    ensures |bs| == |ps|
  {
    seq(|ps|, k requires 0 <= k < |ps| => BindingOf(s, ps[k]))
  }

  lemma {:induction false} AtMostOne<T>(xs: set<T>, x: T, y: T)
    requires |xs| <= 1 && x in xs && y in xs
    ensures x == y
  {
    if x != y {
      TwoMembers(xs, x, y);
    }
  }

  lemma {:induction false} BoundConnectionFits(s: Snapshot, p: Profile)
    requires !ConnectionChoice(s, p).Refuse?
    ensures ConnectionFits(s, p, BoundConnection(s, p), ConnectionChoice(s, p).Create?)
  {
    var exact := ExactConnections(s, p);
    var c := BoundConnection(s, p);
    if ConnectionChoice(s, p).Reuse? {
      assert c in exact;
      forall x | x in s.connections && ConnectionEquivalent(x, p) ensures x == c {
        assert x in exact;
        AtMostOne(exact, x, c);
      }
    } else {
      forall x | x in s.connections
        ensures x.id != c.id && x.name.folded != c.name.folded && !ConnectionEquivalent(x, p)
      {
        assert x !in NamedConnections(s, p) && x !in exact;
      }
    }
  }

  lemma {:induction false} DependencyId(s: Snapshot, p: Profile)
    requires !ConnectionChoice(s, p).Refuse?
    ensures ReferenceAt(s, p).Some?
    ensures ReferenceAt(s, p).value.kind.ExistingConnection? <==> ConnectionChoice(s, p).Reuse?
    ensures ConnectionChoice(s, p).Reuse? ==> ReferenceAt(s, p).value.value == Some(BoundConnection(s, p).id)
  {
  }

  lemma {:induction false} BoundPolicyFits(s: Snapshot, p: Profile)
    requires Consistent(s) && !ConnectionChoice(s, p).Refuse? && !PolicyChoiceFor(s, p).Refuse?
    ensures PolicyFits(s, BoundConnection(s, p).id, BoundPolicy(s, p), PolicyChoiceFor(s, p).Create?)
  {
    DependencyId(s, p);
    BoundConnectionFits(s, p);
    var id := BoundConnection(s, p).id;
    var exact := ExactPolicies(s, ReferenceAt(s, p).value);
    forall x | x in s.policies && PolicyEquivalent(x, id) ensures x in exact {
      if ConnectionChoice(s, p).Create? {
        FoundConnection(s.connections, id);
      }
    }
    var q := BoundPolicy(s, p);
    if PolicyChoiceFor(s, p).Reuse? {
      assert q in exact;
      forall x | x in s.policies && PolicyEquivalent(x, id) ensures x == q {
        AtMostOne(exact, x, q);
      }
    } else {
      forall x | x in s.policies ensures x.id != q.id && x.name.folded != q.name.folded {
        assert x !in NamedPolicies(s, p);
      }
    }
  }

  lemma {:induction false} ConnectionsApart(s: Snapshot, p: Profile, q: Profile)
    requires Consistent(s) && p.slot != q.slot && p.port != q.port
    requires !ConnectionChoice(s, p).Refuse? && !ConnectionChoice(s, q).Refuse?
    ensures BoundConnection(s, p).id != BoundConnection(s, q).id
    ensures ConnectionChoice(s, p).Create? && ConnectionChoice(s, q).Create? ==>
              BoundConnection(s, p).name.folded != BoundConnection(s, q).name.folded
  {
    BoundConnectionFits(s, p);
    BoundConnectionFits(s, q);
    IdentitiesSeparateSlots(p.slot, q.slot);
    NamesSeparatePorts(p, q);
    var c, e := BoundConnection(s, p), BoundConnection(s, q);
    if c in s.connections && e in s.connections && c.id == e.id {
      SameConnection(s.connections, c, e);
    }
  }

  lemma {:induction false} NewPoliciesApart(s: Snapshot, p: Profile, q: Profile)
    requires p.slot != q.slot && p.port != q.port
    requires PolicyChoiceFor(s, p).Create? && PolicyChoiceFor(s, q).Create?
    ensures BoundPolicy(s, p).id != BoundPolicy(s, q).id
    ensures BoundPolicy(s, p).name.folded != BoundPolicy(s, q).name.folded
  {
    IdentitiesSeparateSlots(p.slot, q.slot);
    NamesSeparatePorts(p, q);
  }

  /** The planner's choices bind every profile soundly. */
  lemma {:induction false} ChoicesBind(s: Snapshot, ps: seq<Profile>, d: Option<Device>)
    requires Normal(ps) && Consistent(s) && AllChosen(s, ps, d)
    ensures Bound(s, ps, BindingsOf(s, ps))
  {
    var bs := BindingsOf(s, ps);
    forall k | 0 <= k < |ps| ensures Fits(s, ps[k], bs[k]) {
      assert ps[k] in ps;
      BoundConnectionFits(s, ps[k]);
      BoundPolicyFits(s, ps[k]);
    }
    forall k, l | 0 <= k < l < |ps| ensures Apart(bs[k], bs[l]) {
      assert ps[k] in ps && ps[l] in ps;
      assert ps[k].slot == k + 1 && ps[l].slot == l + 1;
      ConnectionsApart(s, ps[k], ps[l]);
      if bs[k].newPolicy && bs[l].newPolicy {
        NewPoliciesApart(s, ps[k], ps[l]);
      }
    }
  }
}
