/** Every snapshot on the way from the observed state to the planned one is consistent. */
module PlanStages {
  import opened Wrappers
  import opened PlanModel
  import opened PlanBuilder
  import opened PlanExecution
  import opened PlanBindings
  import Mac

  function NewConnections(bs: seq<Binding>): seq<Connection> {
    if bs == [] then []
    else
      var last := bs[|bs| - 1];
      NewConnections(bs[..|bs| - 1]) + (if last.newConnection then [last.connection] else [])
  }

  function NewPolicies(bs: seq<Binding>): seq<Policy> {
    if bs == [] then []
    else
      var last := bs[|bs| - 1];
      NewPolicies(bs[..|bs| - 1]) + (if last.newPolicy then [last.policy] else [])
  }

  /** The snapshot once the first i connections and j policies are in place, and the given assignment. */
  function Stage(s: Snapshot, bs: seq<Binding>, i: nat, j: nat, x: Option<Assignment>): Snapshot
    requires i <= |bs| && j <= |bs|
  {
    s.(connections := s.connections + NewConnections(bs[..i]),
       policies := s.policies + NewPolicies(bs[..j]),
       assignments := s.assignments + (if x.Some? then [x.value] else []))
  }

  ghost predicate Reached(s: Snapshot, t: Snapshot)
    requires Consistent(s)
  {
    Consistent(t) && DefaultProjection(t) == DefaultProjection(s)
  }

  lemma {:induction false} NewConnectionMembers(bs: seq<Binding>, c: Connection)
    ensures c in NewConnections(bs) <==> exists k :: 0 <= k < |bs| && bs[k].newConnection && c == bs[k].connection
  {
    if bs != [] {
      NewConnectionMembers(bs[..|bs| - 1], c);
    }
  }

  lemma {:induction false} NewPolicyMembers(bs: seq<Binding>, q: Policy)
    ensures q in NewPolicies(bs) <==> exists k :: 0 <= k < |bs| && bs[k].newPolicy && q == bs[k].policy
  {
    if bs != [] {
      NewPolicyMembers(bs[..|bs| - 1], q);
    }
  }

  /** Binding k's connection is present from its own step on. */
  lemma {:induction false} ConnectionPresent(s: Snapshot, ps: seq<Profile>, bs: seq<Binding>, i: nat, k: nat)
    requires Bound(s, ps, bs) && k < i <= |bs|
    ensures bs[k].connection in s.connections + NewConnections(bs[..i])
  {
    assert Fits(s, ps[k], bs[k]);
    NewConnectionMembers(bs[..i], bs[k].connection);
    assert bs[..i][k] == bs[k];
  }

  lemma {:induction false} PolicyPresent(s: Snapshot, ps: seq<Profile>, bs: seq<Binding>, j: nat, k: nat)
    requires Bound(s, ps, bs) && k < j <= |bs|
    ensures bs[k].policy in s.policies + NewPolicies(bs[..j])
  {
    assert Fits(s, ps[k], bs[k]);
    NewPolicyMembers(bs[..j], bs[k].policy);
    assert bs[..j][k] == bs[k];
  }

  lemma {:induction false} ConnectionIsFresh(s: Snapshot, ps: seq<Profile>, bs: seq<Binding>, i: nat, x: Connection)
    requires Bound(s, ps, bs) && i < |bs| && bs[i].newConnection
    requires x in s.connections + NewConnections(bs[..i])
    ensures x.id != bs[i].connection.id && x.name.folded != bs[i].connection.name.folded
  {
    assert Fits(s, ps[i], bs[i]);
    if x !in s.connections {
      NewConnectionMembers(bs[..i], x);
      var k :| 0 <= k < i && bs[k].newConnection && x == bs[k].connection;
      assert Apart(bs[k], bs[i]);
    }
  }

  lemma {:induction false} PolicyIsFresh(s: Snapshot, ps: seq<Profile>, bs: seq<Binding>, j: nat, x: Policy)
    requires Bound(s, ps, bs) && j < |bs| && bs[j].newPolicy
    requires x in s.policies + NewPolicies(bs[..j])
    ensures x.id != bs[j].policy.id && x.name.folded != bs[j].policy.name.folded
  {
    assert Fits(s, ps[j], bs[j]);
    if x !in s.policies {
      NewPolicyMembers(bs[..j], x);
      var k :| 0 <= k < j && bs[k].newPolicy && x == bs[k].policy;
      assert Apart(bs[k], bs[j]);
    }
  }

  lemma {:induction false} NextConnectionStage(s: Snapshot, bs: seq<Binding>, i: nat)
    requires i < |bs|
    ensures Stage(s, bs, i + 1, 0, None) ==
            var t := Stage(s, bs, i, 0, None);
            if bs[i].newConnection then t.(connections := t.connections + [bs[i].connection]) else t
  {
    assert bs[..i + 1][..i] == bs[..i];
  }

  lemma {:induction false} NextPolicyStage(s: Snapshot, bs: seq<Binding>, j: nat)
    requires j < |bs|
    ensures Stage(s, bs, |bs|, j + 1, None) ==
            var t := Stage(s, bs, |bs|, j, None);
            if bs[j].newPolicy then t.(policies := t.policies + [bs[j].policy]) else t
  {
    assert bs[..j + 1][..j] == bs[..j];
  }

  lemma {:induction false} ConnectionStages(s: Snapshot, ps: seq<Profile>, bs: seq<Binding>, i: nat)
    requires Bound(s, ps, bs) && i <= |bs|
    ensures Reached(s, Stage(s, bs, i, 0, None))
  {
    if i == 0 {
      assert Stage(s, bs, 0, 0, None) == s;
    } else {
      ConnectionStages(s, ps, bs, i - 1);
      NextConnectionStage(s, bs, i - 1);
      if bs[i - 1].newConnection {
        var t := Stage(s, bs, i - 1, 0, None);
        forall x | x in t.connections
          ensures x.id != bs[i - 1].connection.id && x.name.folded != bs[i - 1].connection.name.folded
        {
          ConnectionIsFresh(s, ps, bs, i - 1, x);
        }
        AppendConnection(t, bs[i - 1].connection);
      }
    }
  }

  lemma {:induction false} PolicyStages(s: Snapshot, ps: seq<Profile>, bs: seq<Binding>, j: nat)
    requires Bound(s, ps, bs) && j <= |bs|
    ensures Reached(s, Stage(s, bs, |bs|, j, None))
  {
    if j == 0 {
      ConnectionStages(s, ps, bs, |bs|);
    } else {
      PolicyStages(s, ps, bs, j - 1);
      NextPolicyStage(s, bs, j - 1);
      if bs[j - 1].newPolicy {
        var t := Stage(s, bs, |bs|, j - 1, None);
        var q := bs[j - 1].policy;
        forall x | x in t.policies ensures x.id != q.id && x.name.folded != q.name.folded {
          PolicyIsFresh(s, ps, bs, j - 1, x);
        }
        assert Fits(s, ps[j - 1], bs[j - 1]);
        ConnectionPresent(s, ps, bs, |bs|, j - 1);
        FoundConnection(t.connections, q.connectionRef);
        AppendPolicy(t, q);
      }
    }
  }

  lemma {:induction false} UnassignedDevice(xs: seq<Assignment>, mac: string)
    ensures FindAssignment(xs, mac).None? <==> forall x :: x in xs ==> x.mac != mac
    ensures FindAssignment(xs, mac).Some? ==>
            FindAssignment(xs, mac).value in xs && FindAssignment(xs, mac).value.mac == mac
  {
    if xs != [] {
      UnassignedDevice(xs[1..], mac);
      assert xs == [xs[0]] + xs[1..];
    }
  }

  /** A new assignment is for a normalised, so far unassigned device and targets the primary policy. */
  ghost predicate AssignmentFits(s: Snapshot, bs: seq<Binding>, x: Option<Assignment>)
    requires bs != []
  {
    x.Some? ==>
      && Mac.NormalizeMac(x.value.mac) == Some(x.value.mac)
      && FindAssignment(s.assignments, x.value.mac).None?
      && x.value.policyRef == bs[0].policy.id
  }

  /** The combinations of progress a run passes through, in the plan's order. */
  predicate InOrder(n: nat, i: nat, j: nat, x: Option<Assignment>) {
    i <= n && j <= n && (j > 0 ==> i == n) && (x.Some? ==> j == n)
  }

  lemma {:induction false} EveryStageIsConsistent(
    s: Snapshot, ps: seq<Profile>, bs: seq<Binding>, i: nat, j: nat, x: Option<Assignment>)
    requires Bound(s, ps, bs) && InOrder(|bs|, i, j, x) && AssignmentFits(s, bs, x)
    ensures Reached(s, Stage(s, bs, i, j, x))
  {
    if j == 0 {
      ConnectionStages(s, ps, bs, i);
    } else {
      PolicyStages(s, ps, bs, j);
    }
    if x.Some? {
      var t := Stage(s, bs, i, j, None);
      UnassignedDevice(s.assignments, x.value.mac);
      assert t.assignments == s.assignments;
      PolicyPresent(s, ps, bs, |bs|, 0);
      FoundPolicy(t.policies, x.value.policyRef);
      AppendAssignment(t, x.value);
      assert Stage(s, bs, i, j, x) == t.(assignments := t.assignments + [x.value]);
    }
  }
}
