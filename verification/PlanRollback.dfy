/** The plan's rollback list, executed as real removals, retraces the run backwards
    (scripts/routerkit_netcraze_plan.py:859-874, 1669-1671). */
module PlanRollback {
  import opened Wrappers
  import opened PlanModel
  import opened PlanBuilder
  import opened PlanExecution
  import opened PlanBindings
  import opened PlanStages
  import opened PlanRuns
  import opened PlanFixpoint
  import opened PlanSimulator

  function WithoutConnection(cs: seq<Connection>, name: Name): seq<Connection> {
    if cs == [] then []
    else
      var last := cs[|cs| - 1];
      WithoutConnection(cs[..|cs| - 1], name) + (if last.name.folded == name.folded then [] else [last])
  }

  function WithoutPolicy(qs: seq<Policy>, name: Name): seq<Policy> {
    if qs == [] then []
    else
      var last := qs[|qs| - 1];
      WithoutPolicy(qs[..|qs| - 1], name) + (if last.name.folded == name.folded then [] else [last])
  }

  /** One rollback action as a removal: the named object, or the selected device's assignment. */
  function Undo(t: Snapshot, r: RollbackAction, d: Option<Device>): Snapshot {
    match r.operation
    case RemoveConnection => t.(connections := WithoutConnection(t.connections, r.target))
    case RemovePolicy => t.(policies := WithoutPolicy(t.policies, r.target))
    case RemoveAssignment =>
      t.(assignments := OtherAssignments(t.assignments, if d.None? then None else Some(d.value.mac)))
  }

  function UndoAll(t: Snapshot, rs: seq<RollbackAction>, d: Option<Device>): Snapshot
    decreases rs
  {
    if rs == [] then t else UndoAll(Undo(t, rs[0], d), rs[1..], d)
  }

  lemma {:induction false} NoConnectionRemoved(cs: seq<Connection>, name: Name)
    requires forall c :: c in cs ==> c.name.folded != name.folded
    ensures WithoutConnection(cs, name) == cs
  {
    if cs != [] {
      var front := cs[..|cs| - 1];
      NoConnectionRemoved(front, name);
      assert cs[|cs| - 1] in cs;
      assert WithoutConnection(cs, name) == WithoutConnection(front, name) + [cs[|cs| - 1]];
    }
  }

  lemma {:induction false} NoPolicyRemoved(qs: seq<Policy>, name: Name)
    requires forall q :: q in qs ==> q.name.folded != name.folded
    ensures WithoutPolicy(qs, name) == qs
  {
    if qs != [] {
      var front := qs[..|qs| - 1];
      NoPolicyRemoved(front, name);
      assert qs[|qs| - 1] in qs;
      assert WithoutPolicy(qs, name) == WithoutPolicy(front, name) + [qs[|qs| - 1]];
    }
  }

  lemma {:induction false} NoAssignmentRemoved(xs: seq<Assignment>, mac: string)
    requires forall x :: x in xs ==> x.mac != mac
    ensures OtherAssignments(xs, Some(mac)) == xs
  {
    if xs != [] {
      NoAssignmentRemoved(xs[..|xs| - 1], mac);
    }
  }

  lemma {:induction false} UndoConnection(t: Snapshot, c: Connection, r: RollbackAction, d: Option<Device>)
    requires r.operation.RemoveConnection? && r.target == c.name
    requires forall x :: x in t.connections ==> x.name.folded != c.name.folded
    ensures Undo(t.(connections := t.connections + [c]), r, d) == t
  {
    assert (t.connections + [c])[..|t.connections|] == t.connections;
    NoConnectionRemoved(t.connections, c.name);
  }

  lemma {:induction false} UndoPolicy(t: Snapshot, q: Policy, r: RollbackAction, d: Option<Device>)
    requires r.operation.RemovePolicy? && r.target == q.name
    requires forall x :: x in t.policies ==> x.name.folded != q.name.folded
    ensures Undo(t.(policies := t.policies + [q]), r, d) == t
  {
    assert (t.policies + [q])[..|t.policies|] == t.policies;
    NoPolicyRemoved(t.policies, q.name);
  }

  lemma {:induction false} UndoAssignment(t: Snapshot, x: Assignment, r: RollbackAction, d: Device)
    requires r.operation.RemoveAssignment? && x.mac == d.mac && FindAssignment(t.assignments, d.mac).None?
    ensures Undo(t.(assignments := t.assignments + [x]), r, Some(d)) == t
  {
    assert (t.assignments + [x])[..|t.assignments|] == t.assignments;
    UnassignedDevice(t.assignments, d.mac);
    NoAssignmentRemoved(t.assignments, d.mac);
  }

  lemma {:induction false} ConnectionUndone(
    s: Snapshot, ps: seq<Profile>, d: Option<Device>, bs: seq<Binding>, x: Option<Assignment>, k: nat, a: PlanAction)
    requires Bound(s, ps, bs) && k < |ps| && BindsConnection(a, ps[k], bs[k]) && Mutating(a.operation)
    ensures RollbackFor(a).Some? && Undo(Progress(s, bs, x, k + 1), RollbackFor(a).value, d) == Progress(s, bs, x, k)
  {
    var t := Stage(s, bs, k, 0, None);
    NextConnectionStage(s, bs, k);
    forall y | y in t.connections ensures y.name.folded != bs[k].connection.name.folded {
      ConnectionIsFresh(s, ps, bs, k, y);
    }
    UndoConnection(t, bs[k].connection, RollbackFor(a).value, d);
  }

  lemma {:induction false} PolicyUndone(
    s: Snapshot, ps: seq<Profile>, d: Option<Device>, bs: seq<Binding>, x: Option<Assignment>, j: nat, a: PlanAction)
    requires Bound(s, ps, bs) && j < |ps| && BindsPolicy(a, ps[j], bs[j]) && Mutating(a.operation)
    ensures RollbackFor(a).Some?
            && Undo(Progress(s, bs, x, |ps| + j + 1), RollbackFor(a).value, d) == Progress(s, bs, x, |ps| + j)
  {
    var t := Stage(s, bs, |bs|, j, None);
    PolicyProgress(s, bs, x, j);
    forall y | y in t.policies ensures y.name.folded != bs[j].policy.name.folded {
      PolicyIsFresh(s, ps, bs, j, y);
    }
    UndoPolicy(t, bs[j].policy, RollbackFor(a).value, d);
  }

  lemma {:induction false} DeviceRollback(
    s: Snapshot, d: Device, policyId: string, x: Option<Assignment>, a: PlanAction)
    requires BindsDevice(a, s, d, policyId, x) && Mutating(a.operation)
    ensures x.Some? && x.value.mac == d.mac
    ensures RollbackFor(a).Some? && RollbackFor(a).value.operation.RemoveAssignment?
  {
  }

  lemma {:induction false} DeviceUndone(
    s: Snapshot, bs: seq<Binding>, d: Device, x: Assignment, r: RollbackAction)
    requires bs != [] && x.mac == d.mac && r.operation.RemoveAssignment? && FindAssignment(s.assignments, d.mac).None?
    ensures Undo(Progress(s, bs, Some(x), 2 * |bs| + 1), r, Some(d)) == Progress(s, bs, Some(x), 2 * |bs|)
  {
    var t := Stage(s, bs, |bs|, |bs|, None);
    DeviceProgress(s, bs, Some(x));
    assert t.assignments == s.assignments;
    UndoAssignment(t, x, r, d);
  }

  lemma {:induction false} AssignmentUndone(
    s: Snapshot, ps: seq<Profile>, d: Device, bs: seq<Binding>, x: Option<Assignment>, a: PlanAction)
    requires |bs| == |ps| > 0 && AssignmentFits(s, bs, x) && BindsDevice(a, s, d, bs[0].policy.id, x)
             && Mutating(a.operation)
    ensures RollbackFor(a).Some?
            && Undo(Progress(s, bs, x, 2 * |ps| + 1), RollbackFor(a).value, Some(d)) == Progress(s, bs, x, 2 * |ps|)
  {
    DeviceRollback(s, d, bs[0].policy.id, x, a);
    DeviceUndone(s, bs, d, x.value, RollbackFor(a).value);
  }

  /** An action that took one snapshot to the next is undone: its rollback leads back, or there is nothing to undo. */
  ghost predicate Undoes(a: PlanAction, d: Option<Device>, before: Snapshot, after: Snapshot) {
    if RollbackFor(a).Some? then Undo(after, RollbackFor(a).value, d) == before else after == before
  }

  /** A run whose snapshots the rollback list can walk back through. */
  ghost predicate Reversible(plan: ChangePlan, s: Snapshot, tr: seq<Snapshot>) {
    && |tr| == |plan.actions| + 1 && tr[0] == s
    && forall k {:trigger UndoneAt(plan, tr, k)} :: 0 <= k < |plan.actions| ==> UndoneAt(plan, tr, k)
  }

  ghost predicate UndoneAt(plan: ChangePlan, tr: seq<Snapshot>, k: nat)
    requires |tr| == |plan.actions| + 1 && k < |plan.actions|
  {
    Undoes(plan.actions[k], plan.device, tr[k], tr[k + 1])
  }

  lemma {:induction false} OnlyMutationsRollBack(a: PlanAction)
    ensures RollbackFor(a).Some? ==> Mutating(a.operation)
  {
  }

  lemma {:induction false} ConnectionActionUndone(
    s: Snapshot, ps: seq<Profile>, d: Option<Device>, bs: seq<Binding>, x: Option<Assignment>, k: nat, a: PlanAction)
    requires Bound(s, ps, bs) && k < |ps| && BindsConnection(a, ps[k], bs[k])
    ensures Undoes(a, d, Progress(s, bs, x, k), Progress(s, bs, x, k + 1))
  {
    OnlyMutationsRollBack(a);
    if Mutating(a.operation) {
      ConnectionUndone(s, ps, d, bs, x, k, a);
    } else {
      ConnectionStepAdvances(s, ps, d, bs, x, a, k);
    }
  }

  lemma {:induction false} PolicyActionUndone(
    s: Snapshot, ps: seq<Profile>, d: Option<Device>, bs: seq<Binding>, x: Option<Assignment>, k: nat, a: PlanAction)
    requires Bound(s, ps, bs) && |ps| <= k < 2 * |ps| && BindsPolicy(a, ps[k - |ps|], bs[k - |ps|])
    ensures Undoes(a, d, Progress(s, bs, x, k), Progress(s, bs, x, k + 1))
  {
    var j := k - |ps|;
    OnlyMutationsRollBack(a);
    if Mutating(a.operation) {
      PolicyUndone(s, ps, d, bs, x, j, a);
    } else {
      PolicyStepAdvances(s, ps, d, bs, x, a, j);
    }
  }

  lemma {:induction false} AssignmentActionUndone(
    s: Snapshot, ps: seq<Profile>, d: Device, bs: seq<Binding>, x: Option<Assignment>, k: nat, a: PlanAction)
    requires Bound(s, ps, bs) && AssignmentFits(s, bs, x) && k == 2 * |ps| && BindsDevice(a, s, d, bs[0].policy.id, x)
    ensures Undoes(a, Some(d), Progress(s, bs, x, k), Progress(s, bs, x, k + 1))
  {
    OnlyMutationsRollBack(a);
    if Mutating(a.operation) {
      AssignmentUndone(s, ps, d, bs, x, a);
    } else {
      DeviceStepAdvances(s, ps, d, bs, x, a);
    }
  }

  lemma {:induction false} VerificationUndone(
    s: Snapshot, bs: seq<Binding>, d: Option<Device>, x: Option<Assignment>, k: nat, a: PlanAction)
    requires k >= 2 * |bs| && (x.None? || k > 2 * |bs|) && IsVerification(a, d)
    ensures Undoes(a, d, Progress(s, bs, x, k), Progress(s, bs, x, k + 1))
  {
    ProgressSettles(s, bs, x, k);
  }

  /** Undoing action k leads back to the snapshot before it. */
  lemma {:induction false} InstructionUndone(
    s: Snapshot, ps: seq<Profile>, d: Option<Device>, bs: seq<Binding>, x: Option<Assignment>, k: nat, a: PlanAction)
    requires Bound(s, ps, bs) && AssignmentFits(s, bs, x) && (x.Some? ==> d.Some?) && Instruction(s, ps, d, bs, x, k, a)
    ensures Undoes(a, d, Progress(s, bs, x, k), Progress(s, bs, x, k + 1))
  {
    if k < |ps| {
      ConnectionActionUndone(s, ps, d, bs, x, k, a);
    } else if k < 2 * |ps| {
      PolicyActionUndone(s, ps, d, bs, x, k, a);
    } else if k == 2 * |ps| && d.Some? {
      AssignmentActionUndone(s, ps, d.value, bs, x, k, a);
    } else {
      VerificationUndone(s, bs, d, x, k, a);
    }
  }

  lemma {:induction false} UndoneOnTrace(plan: ChangePlan, s: Snapshot, bs: seq<Binding>, x: Option<Assignment>, k: nat)
    requires k < |plan.actions|
    requires Undoes(plan.actions[k], plan.device, Progress(s, bs, x, k), Progress(s, bs, x, k + 1))
    ensures UndoneAt(plan, TraceOf(s, bs, x, |plan.actions| + 1), k)
  {
  }

  lemma {:induction false} StepUndone(
    plan: ChangePlan, s: Snapshot, ps: seq<Profile>, d: Option<Device>, bs: seq<Binding>, x: Option<Assignment>,
    tr: seq<Snapshot>, k: nat)
    requires Enacts(plan, s, ps, d, bs, x) && tr == TraceOf(s, bs, x, |plan.actions| + 1) && k < |plan.actions|
    ensures UndoneAt(plan, tr, k)
  {
    assert Instruction(s, ps, d, bs, x, k, plan.actions[k]);
    InstructionUndone(s, ps, d, bs, x, k, plan.actions[k]);
    UndoneOnTrace(plan, s, bs, x, k);
  }

  lemma {:induction false} EnactedPlanIsReversible(
    plan: ChangePlan, s: Snapshot, ps: seq<Profile>, d: Option<Device>, bs: seq<Binding>, x: Option<Assignment>,
    tr: seq<Snapshot>)
    requires Enacts(plan, s, ps, d, bs, x) && tr == TraceOf(s, bs, x, |plan.actions| + 1)
    ensures Reversible(plan, s, tr)
  {
    ProgressStartsAtSource(s, bs, x);
    forall k | 0 <= k < |plan.actions| ensures UndoneAt(plan, tr, k) {
      StepUndone(plan, s, ps, d, bs, x, tr, k);
    }
  }

  lemma {:induction false} UnblockedPlanIsReversible(s: Snapshot, ps: seq<Profile>, d: Option<Device>)
    requires Unblocked(s, ps, d)
    ensures Reversible(PlanFor(s, ps, d), s, PlanTrace(s, ps, d))
  {
    UnblockedPlanEnacts(s, ps, d);
    EnactedPlanIsReversible(
      PlanFor(s, ps, d), s, ps, d, BindingsOf(s, ps), NewAssignment(s, ps, d), PlanTrace(s, ps, d));
  }

  lemma {:induction false} RollbackNext(actions: seq<PlanAction>, k: nat)
    requires k < |actions|
    ensures RollbackOf(actions[..k + 1])
            == (if RollbackFor(actions[k]).Some? then [RollbackFor(actions[k]).value] else [])
               + RollbackOf(actions[..k])
  {
    assert actions[..k + 1][..k] == actions[..k];
  }

  lemma {:induction false} UndoFirst(
    t: Snapshot, r: RollbackAction, rest: seq<RollbackAction>, m: nat, d: Option<Device>)
    requires 0 < m <= |rest| + 1
    ensures UndoAll(t, ([r] + rest)[..m], d) == UndoAll(Undo(t, r, d), rest[..m - 1], d)
    ensures ([r] + rest)[m..] == rest[m - 1..]
  {
    var first := ([r] + rest)[..m];
    assert first[0] == r && first[1..] == rest[..m - 1];
  }

  /** After any m of the removals the snapshot is one the run had passed through, no later than action k. */
  lemma {:induction false} RemovalsRetrace(plan: ChangePlan, s: Snapshot, tr: seq<Snapshot>, k: nat, m: nat)
    returns (j: nat)
    requires Reversible(plan, s, tr) && k <= |plan.actions| && m <= |RollbackOf(plan.actions[..k])|
    ensures j <= k && UndoAll(tr[k], RollbackOf(plan.actions[..k])[..m], plan.device) == tr[j]
    ensures RollbackOf(plan.actions[..j]) == RollbackOf(plan.actions[..k])[m..]
    ensures m == |RollbackOf(plan.actions[..k])| ==> tr[j] == s
  {
    var undo := RollbackOf(plan.actions[..k]);
    if k == 0 {
      j := 0;
    } else {
      RollbackNext(plan.actions, k - 1);
      assert UndoneAt(plan, tr, k - 1);
      var rest := RollbackOf(plan.actions[..k - 1]);
      if RollbackFor(plan.actions[k - 1]).None? {
        assert undo == rest;
        j := RemovalsRetrace(plan, s, tr, k - 1, m);
      } else if m == 0 {
        j := k;
      } else {
        j := RemovalsRetrace(plan, s, tr, k - 1, m - 1);
        UndoFirst(tr[k], RollbackFor(plan.actions[k - 1]).value, rest, m, plan.device);
      }
    }
  }

  /** From the state after any prefix of an unblocked plan, the rollback list walks back through the run's own
      snapshots, each consistent with an unchanged default policy, and ends in the initial snapshot. */
  lemma {:induction false} RollbackRetracesRun(
    s: Snapshot, ps: seq<Profile>, d: Option<Device>, k: nat, m: nat) returns (j: nat)
    requires Unblocked(s, ps, d)
    requires k <= |PlanFor(s, ps, d).actions| && m <= |RollbackOf(PlanFor(s, ps, d).actions[..k])|
    ensures var plan := PlanFor(s, ps, d);
            var undo := RollbackOf(plan.actions[..k]);
            && j <= k && UndoAll(Run(s, plan, k), undo[..m], d) == Run(s, plan, j) && Reached(s, Run(s, plan, j))
            && (m == |undo| ==> Run(s, plan, j) == s)
  {
    var plan := PlanFor(s, ps, d);
    var tr := PlanTrace(s, ps, d);
    UnblockedPlanRuns(s, ps, d);
    UnblockedPlanIsReversible(s, ps, d);
    TraceIsRun(plan, s, tr, k);
    j := RemovalsRetrace(plan, s, tr, k, m);
    TraceIsRun(plan, s, tr, j);
  }

  /** What is undone after stopping early is exactly the tail of the plan's own rollback list. */
  lemma {:induction false} PerformedRollbackIsSuffix(actions: seq<PlanAction>, k: nat)
    requires k <= |actions|
    ensures |RollbackOf(actions[..k])| <= |RollbackOf(actions)|
    ensures RollbackOf(actions)[|RollbackOf(actions)| - |RollbackOf(actions[..k])|..] == RollbackOf(actions[..k])
  {
    if k == |actions| {
      assert actions[..k] == actions;
    } else {
      var front := actions[..|actions| - 1];
      PerformedRollbackIsSuffix(front, k);
      assert front[..k] == actions[..k];
      RollbackNext(actions, |actions| - 1);
      assert actions[..|actions|] == actions;
      var head := if RollbackFor(actions[|actions| - 1]).Some? then [RollbackFor(actions[|actions| - 1]).value] else [];
      assert RollbackOf(actions) == head + RollbackOf(front);
      var cut := |RollbackOf(front)| - |RollbackOf(actions[..k])|;
      assert (head + RollbackOf(front))[|head| + cut..] == RollbackOf(front)[cut..];
    }
  }
}
