/** One invocation of live-install against a persisted receipt (scripts/routerkit_live_install.py:590-598, 1034-1647,
    1816-1870). */
module InstallSession {
  import opened Wrappers
  import opened InstallReceipt
  import opened InstallRuns
  import opened InstallGrounds
  import opened LiveInstall

  /** How an invocation, or a part of it, ends. */
  datatype Exit = Continue | Handoff | Failed(code: int) | Crashed

  /** The checks a reboot must leave passing. */
  const POST_REBOOT := {Management, Wan, Lan, Wifi, UsbOpt, Entware, XrayCheck, Listeners}

  /** `_runtime_evidence_is_sufficient`. */
  predicate Sufficient(e: Option<Evidence>, release: string, manifest: string, requireRecovery: bool) {
    && e.Some?
    && POST_REBOOT <= e.value.passed
    && e.value.runtime.onRouter && e.value.runtime.optReady && e.value.runtime.entwareReady
    && e.value.runtime.release == Some(release) && e.value.runtime.running && e.value.runtime.listeners
    && e.value.runtime.autostart && (e.value.runtime.rebootRecovery || !requireRecovery)
    && e.value.runtime.manifestVerified && e.value.runtime.manifest == Some(manifest)
  }

  /** `dns_gate`: a protected, verified path that is unbound or shares an interface with the policy. */
  predicate DnsGate(e: Evidence) {
    && e.dnsProtected && e.dnsVerified
    && (e.availability.AnyBinding? || e.availability.Unbound?
        || (e.availability.Interfaces? && e.boundInterfaces * e.policyInterfaces != {}))
  }

  predicate ClientGate(e: Evidence) {
    e.clientAssigned && e.domainDns && e.domainHttps && e.probed
  }

  lemma {:induction false} GatesShow(e: Evidence)
    ensures READINESS <= e.passed <==> ShowsReadiness(e)
    ensures POST_REBOOT <= e.passed <==> ShowsRecovery(e)
    ensures DnsGate(e) <==> ShowsDns(e)
    ensures ClientGate(e) <==> ShowsClient(e)
  {
    if ShowsDns(e) && e.availability.Interfaces? {
      var i :| i in e.boundInterfaces && i in e.policyInterfaces;
      assert i in e.boundInterfaces * e.policyInterfaces;
    }
  }

  lemma {:induction false} SufficientShows(e: Option<Evidence>, identity: Identity, manifest: string)
    ensures Sufficient(e, identity.artifact, manifest, identity.adopt)
            <==> e.Some? && ShowsRuntime(e.value, identity, manifest)
  {
    if e.Some? {
      GatesShow(e.value);
    }
  }

  /** Manifest, evidence, disposition and the ten installation stages, then the summary. */
  method WriteRuntime(receipt: LiveReceipt, e: Evidence, manifest: string)
    requires |receipt.stages| == STAGES
    modifies receipt
    ensures receipt.Value() == WithRuntime(old(receipt.Value()), e, manifest)
  {
    ghost var before := receipt.Value();
    receipt.endpoint, receipt.runtimeEvidence := Some(manifest), Some(e);
    receipt.disposition := if receipt.identity.adopt then Adopted else ExternalExecuted;
    ghost var marked := receipt.Value();
    for k := 0 to AUTOSTART + 1
      invariant |receipt.stages| == STAGES
      invariant forall j :: 0 <= j < STAGES ==>
                  receipt.stages[j] == if j < k then RuntimeStages(before)[j] else before.stages[j]
      invariant receipt.Value() == marked.(stages := receipt.stages)
    {
      receipt.Mark(k, if receipt.identity.adopt then AdoptedStatus(k) else Pass);
    }
    assert receipt.stages == RuntimeStages(before);
    receipt.Sync();
  }

  lemma {:induction false} ReadinessEarned(w: World, start: Stand, r: Receipt, asked: seq<Tool>, e: Evidence)
    requires OnlyStages(start.receipt, r, NETWORK, BOOTSTRAP) && r.identity.mode.LocalRouter? && ShowsReadiness(e)
    requires r.rebootRequired == start.receipt.rebootRequired
    requires start.asked + [PreflightTool] <= asked && w.outcomes(|start.asked|).succeeds
    ensures Earned(w, start.receipt, r, asked, |start.asked|, Some(e), NETWORK, BOOTSTRAP)
  {
    AskedFirst(w, start.asked, PreflightTool, asked);
  }

  lemma {:induction false} SetupEarned(w: World, start: Stand, r: Receipt, asked: seq<Tool>, e: Option<Evidence>)
    requires OnlyStages(start.receipt, r, SOURCE, BACKUP) && r.identity.mode.LocalRouter?
    requires start.asked + [SetupTool] + [ManifestFile] <= asked && w.outcomes(|start.asked|).succeeds
    requires w.outcomes(|start.asked| + 1).manifest.Some?
    ensures Earned(w, start.receipt, r, asked, |start.asked|, e, SOURCE, BACKUP)
  {
    AskedFirst(w, start.asked, SetupTool, asked);
    assert asked[|start.asked| + 1] == ManifestFile;
  }

  /** The receipt once one delegated stage has passed. */
  function StagePassed(r: Receipt, stage: nat): Receipt
    requires |r.stages| == STAGES && stage <= HEALTHCHECK
  {
    var s := MarkStage(r, stage, Pass);
    if stage == HEALTHCHECK then s.(final := s.final.(xray := true)) else s
  }

  lemma {:induction false} StageCanPass(r: Receipt, e: Evidence, manifest: string, stage: nat)
    requires Valid(r) && Underway(r, e, manifest) && 0 < stage <= HEALTHCHECK && !Done(r, stage) && Done(r, stage - 1)
    requires stage > SOURCE ==> Done(r, STRICT_PLAN)
    ensures Valid(StagePassed(r, stage)) && Underway(StagePassed(r, stage), e, manifest)
  {
    assert StagePassed(r, stage).stages == StagesPassed(r, stage, stage + 1).stages;
    StagesCanPass(r, e, manifest, stage, stage + 1);
  }

  lemma {:induction false} ManifestCanBeTaken(r: Receipt, e: Evidence, manifest: string)
    requires Valid(r) && Underway(r, e, manifest) && Done(r, BOOTSTRAP) && !Done(r, STRICT_PLAN)
    ensures var s := StagesPassed(r.(endpoint := Some(manifest)), SOURCE, BACKUP);
            Valid(s) && Underway(s, e, manifest)
  {
    StagesCanPass(r.(endpoint := Some(manifest)), e, manifest, SOURCE, BACKUP);
  }

  /** The stages that are one delegated command each. */
  predicate IsToolOf(stage: nat, tool: Tool) {
    || (stage == BOOTSTRAP && tool == BootstrapTool) || (stage == BACKUP && tool == BackupTool)
    || (stage == INSTALL && tool == InstallTool) || (stage == HEALTHCHECK && tool == HealthcheckTool)
  }

  lemma {:induction false} ToolEarned(
    w: World, start: Stand, asked: seq<Tool>, stage: nat, tool: Tool, e: Option<Evidence>)
    requires IsToolOf(stage, tool) && |start.receipt.stages| == STAGES && start.receipt.identity.mode.LocalRouter?
    requires start.asked + [tool] <= asked && w.outcomes(|start.asked|).succeeds
    ensures Earned(w, start.receipt, StagePassed(start.receipt, stage), asked, |start.asked|, e, stage, stage + 1)
  {
    AskedFirst(w, start.asked, tool, asked);
  }

  lemma {:induction false} AutostartEarned(w: World, start: Stand, r: Receipt, asked: seq<Tool>, e: Option<Evidence>)
    requires OnlyStages(start.receipt, r, AUTOSTART, COMPONENT) && r.identity.mode.LocalRouter?
    requires start.asked + [AutostartTool] <= asked
    requires w.outcomes(|start.asked|).succeeds && w.outcomes(|start.asked|).verified
    ensures Earned(w, start.receipt, r, asked, |start.asked|, e, AUTOSTART, COMPONENT)
  {
    AskedFirst(w, start.asked, AutostartTool, asked);
  }

  lemma {:induction false} ComponentEarned(
    w: World, before: Receipt, r: Receipt, asked: seq<Tool>, from: nat, e: Evidence)
    requires OnlyStages(before, r, COMPONENT, REBOOT) && e.componentPresent && ProxyComponent in e.passed
    ensures Earned(w, before, r, asked, from, Some(e), COMPONENT, REBOOT)
  {
  }

  lemma {:induction false} RebootEarned(
    w: World, before: Receipt, r: Receipt, asked: seq<Tool>, from: nat, e: Option<Evidence>)
    requires OnlyStages(before, r, REBOOT, NATIVE)
    requires forall k :: REBOOT <= k < NATIVE && IsDone(r.stages[k]) && r.stages[k] != before.stages[k] ==>
               RebootGrounds(k, r, r.stages[k], e)
    ensures Earned(w, before, r, asked, from, e, REBOOT, NATIVE)
  {
  }

  lemma {:induction false} DnsEarned(w: World, before: Receipt, r: Receipt, asked: seq<Tool>, from: nat, e: Evidence)
    requires OnlyStages(before, r, DNS, CLIENT) && DnsGrounds(before.native, Some(e))
    ensures Earned(w, before, r, asked, from, Some(e), DNS, CLIENT)
  {
  }

  /** The receipt once the native stage is passed. */
  function NativePassed(r: Receipt): Receipt
    requires |r.stages| == STAGES
  {
    MarkStage(r.(native := r.native.(status := NativePass)), NATIVE, Pass).(final := r.final.(native := true))
  }

  /** The native transaction as the local adapter reports it. */
  function AppliedNative(r: Receipt, applied: Outcome): Native {
    r.native.(writeRequired := Some(applied.writeRequired), saveRequired := Some(applied.writeRequired),
              preEpoch := Some(r.epoch), dnsRefreshRequired := applied.writeRequired)
  }

  function PlannedNative(r: Receipt, args: Arguments, packet: Outcome): Native {
    Native(Some(packet.fingerprint), Planned, Some(packet.writeRequired), Some(packet.writeRequired), Some(r.epoch),
           packet.writeRequired, args.preSnapshot, r.native.runningSnapshot)
  }

  /** A passed native stage can be persisted exactly if the reboot is proven. */
  lemma {:induction false} NativeIsValidIff(r: Receipt, n: Native)
    requires Valid(r) && Done(r, REBOOT) && !Done(r, NATIVE)
    ensures Valid(NativePassed(r.(native := n))) <==> Done(r, REBOOT_PROOF)
  {
    var s := NativePassed(r.(native := n));
    OneStageLater(r, s, NATIVE);
  }

  function DnsPassed(r: Receipt): Receipt
    requires |r.stages| == STAGES
  {
    MarkStage(r, DNS, Pass).(dnsGate := true, final := r.final.(dns := true))
  }

  function ClientPassed(r: Receipt): Receipt
    requires |r.stages| == STAGES
  {
    MarkStage(r, CLIENT, Pass).(final := r.final.(client := true))
  }

  /** The stage has just passed, and nothing the installation is judged by has changed. */
  lemma {:induction false} OneStageLater(r: Receipt, s: Receipt, stage: nat)
    requires |r.stages| == STAGES && Ordered(r.stages) && AUTOSTART < stage < STAGES && !Done(r, stage)
    requires s.stages == r.stages[stage := StageRecord(Pass, Some(r.epoch))]
    ensures Ordered(s.stages) <==> Done(r, stage - 1)
    ensures Installed(s) == Installed(r) && AllPassed(s) == AllPassed(r) && AdoptedPattern(s) == AdoptedPattern(r)
  {
    assert forall k :: 0 <= k < STAGES && k != stage ==> s.stages[k] == r.stages[k];
    if !Done(r, stage - 1) {
      assert IsDone(s.stages[stage]) && !IsDone(s.stages[stage - 1]);
    }
  }

  lemma {:induction false} DnsIsValidIff(r: Receipt)
    requires Valid(r) && !Done(r, DNS)
    ensures Valid(DnsPassed(r)) <==> Done(r, NATIVE)
  {
    OneStageLater(r, DnsPassed(r), DNS);
  }

  lemma {:induction false} ClientIsValidIff(r: Receipt)
    requires Valid(r) && !Done(r, CLIENT)
    ensures Valid(ClientPassed(r)) <==> Done(r, DNS)
  {
    OneStageLater(r, ClientPassed(r), CLIENT);
  }

  lemma {:induction false} FinalIsValidIff(r: Receipt)
    requires Valid(r)
    ensures Valid(MarkStage(r, FINAL_RESULT, Pass)) <==>
            r.stages[NATIVE].status.Pass? && r.stages[DNS].status.Pass? && r.stages[CLIENT].status.Pass?
  {
    var s := MarkStage(r, FINAL_RESULT, Pass);
    assert forall k :: 0 <= k < FINAL_RESULT ==> s.stages[k] == r.stages[k];
    assert Installed(s) == Installed(r) && AllPassed(s) == AllPassed(r) && AdoptedPattern(s) == AdoptedPattern(r);
    if r.stages[CLIENT].status.Pass? {
      assert Ordered(s.stages);
    } else {
      assert IsDone(s.stages[FINAL_RESULT]);
    }
  }

  lemma {:induction false} AppliedIsEarned(
    w: World, start: Stand, asked: seq<Tool>, applied: Outcome, e: Option<Evidence>)
    requires |start.receipt.stages| == STAGES && w.args.localTransport
    requires start.asked + [NativePlanTool] + [NativeApplyTool] <= asked
    requires w.outcomes(|start.asked|).succeeds && applied == w.outcomes(|start.asked| + 1)
    requires applied.succeeds && applied.verified
    ensures Earned(
              w, start.receipt, NativePassed(start.receipt.(native := AppliedNative(start.receipt, applied))), asked,
              |start.asked|, e, NATIVE, DNS)
  {
    var s := NativePassed(start.receipt.(native := AppliedNative(start.receipt, applied)));
    assert asked[|start.asked|] == NativePlanTool && asked[|start.asked| + 1] == NativeApplyTool;
    assert AppliedLocally(w, s, asked, |start.asked|);
  }

  /** A planned transaction has stayed as it was, or its running state was verified. */
  lemma {:induction false} VerificationAdvances(
    w: World, before: Native, n: Native, start: seq<Tool>, matched: seq<Tool>, asked: seq<Tool>)
    requires before.status.Planned? && start + [PacketFile] == matched && matched <= asked
    requires w.outcomes(|start|).succeeds && before.fingerprint == Some(w.outcomes(|start|).fingerprint)
    requires n == before
             || (n == before.(status := RunningVerified, runningSnapshot := w.args.postSnapshot)
                 && Verified(w, asked, |matched|, RunningSnapshot)
                 && w.args.postSnapshot.Some? && w.args.postSnapshot != before.preSnapshot)
    ensures NativeAdvanced(w, before, n, asked, |start|)
    ensures n != before ==> PacketMatched(w, n, asked, |start|) && RunningProven(w, before, n, asked, |start|)
  {
    assert asked[|start|] == PacketFile;
    AskedFromEarlier(w, asked, |start|, |matched|, RunningSnapshot);
  }

  lemma {:induction false} PlanAdvances(w: World, r: Receipt, start: seq<Tool>, asked: seq<Tool>)
    requires start + [PacketBuilder] <= asked && w.args.preSnapshot.Some?
    requires w.outcomes(|start|).succeeds && w.outcomes(|start|).verified
    ensures NativeAdvanced(w, r.native, PlannedNative(r, w.args, w.outcomes(|start|)), asked, |start|)
  {
    assert asked[|start|] == PacketBuilder;
  }

  /** Only the transaction has moved on. */
  lemma {:induction false} TransactionAdvances(
    w: World, r: Receipt, n: Native, asked: seq<Tool>, from: nat, e: Option<Evidence>)
    requires |r.stages| == STAGES && NativeAdvanced(w, r.native, n, asked, from)
    ensures Earned(w, r, r.(native := n), asked, from, e, NATIVE, NATIVE)
  {
  }

  /** The external stage passes on what was verified before. */
  lemma {:induction false} PassIsEarned(
    w: World, start: Stand, prepared: Stand, verified: seq<Tool>, asked: seq<Tool>, e: Option<Evidence>)
    requires |start.receipt.stages| == STAGES && !w.args.localTransport
    requires prepared.receipt == start.receipt.(native := prepared.receipt.native)
    requires start.asked <= prepared.asked <= verified <= asked
    requires PacketMatched(w, prepared.receipt.native, prepared.asked, |start.asked|)
    requires RunningProven(w, start.receipt.native, prepared.receipt.native, prepared.asked, |start.asked|)
    requires SaveProven(w, prepared.receipt.native, verified, |prepared.asked|)
    ensures Earned(w, start.receipt, NativePassed(prepared.receipt), asked, |start.asked|, e, NATIVE, DNS)
  {
    var from, n := |start.asked|, prepared.receipt.native;
    PlannedStays(w, n, prepared.asked, asked, from, from);
    ProofsStay(w, start.receipt.native, n, prepared.asked, asked, from, from);
    ProofsStay(w, start.receipt.native, n, verified, asked, from, |prepared.asked|);
    assert NativeGrounds(w, start.receipt, NativePassed(prepared.receipt), asked, from);
  }

  class Session {
    const receipt: LiveReceipt
    const args: Arguments
    /** What the outside world will answer, in order: anything is possible. */
    const outcomes: nat -> Outcome
    var clock: nat
    /** The receipt file. */
    var saved: Receipt
    /** Everything ever written to it. */
    ghost var history: seq<Receipt>
    /** Whom this invocation has asked, in order. */
    ghost var asked: seq<Tool>

    /** `apply`: a fresh receipt, written before anything else. */
    constructor Apply(args: Arguments, outcomes: nat -> Outcome, intent: Intent)
      ensures Running() && Valid(receipt.Value()) && fresh(receipt) && history == [InitialReceipt(intent)]
      ensures receipt.Value() == InitialReceipt(intent) && this.args == args && this.outcomes == outcomes
    {
      var r := InitialReceipt(intent);
      receipt := new LiveReceipt(r);
      this.args, this.outcomes, clock, saved, history, asked := args, outcomes, 0, r, [r], [];
      new;
      InitialReceiptIsValid(intent);
      FreshIsReachable(intent);
    }

    /** `resume`: a receipt loaded from the file. */
    constructor Resume(args: Arguments, outcomes: nat -> Outcome, saved: Receipt, ghost history: seq<Receipt>)
      requires history != [] && saved == history[|history| - 1] && Reachable(history, saved)
      ensures Running() && Valid(receipt.Value()) && fresh(receipt) && this.history == history
      ensures this.outcomes == outcomes && receipt.Value() == saved
    {
      receipt := new LiveReceipt(saved);
      this.args, this.outcomes, clock, this.saved, this.history, asked := args, outcomes, 0, saved, history, [];
      new;
      ReachableShape(history, saved);
      EveryRunIsGood(history, saved);
    }

    /** The file holds the last receipt a run has written. */
    ghost predicate Filed()
      reads this
    {
      history != [] && saved == history[|history| - 1] && Reachable(history, saved)
    }

    /** That run is under way, with this receipt in memory. */
    ghost predicate Running()
      reads this, receipt
    {
      && history != [] && saved == history[|history| - 1] && |asked| == clock
      && |receipt.stages| == STAGES && Reachable(history, receipt.Value())
    }

    ghost function Outside(): World {
      World(args, outcomes)
    }

    ghost function Here(): Stand
      reads this, receipt
    {
      Stand(receipt.Value(), history, asked)
    }

    /** Every tool and write to come succeeds, and the endpoint manifest is the one on record. */
    ghost predicate Favourable(manifest: Option<string>) {
      forall i :: outcomes(i).succeeds && outcomes(i).manifest == manifest
    }

    /** A complete local installation, and nothing in the way of finding it so. */
    ghost predicate InPlace()
      reads receipt
    {
      && |receipt.stages| == STAGES && Installed(receipt.Value()) && receipt.identity.mode.LocalRouter?
      && Favourable(receipt.endpoint)
    }

    /** The manifest the whole invocation works with. */
    ghost function Manifest(): string {
      outcomes(0).manifest.GetOr("")
    }

    /** A local installation on its way, in a world that helps, with evidence that shows everything. */
    ghost predicate Helped(e: Option<Evidence>)
      reads receipt
    {
      e.Some? && Helpful(Outside(), Manifest()) && ShowsAll(e.value) && Underway(receipt.Value(), e.value, Manifest())
    }

    /** What comes after the reboot stage can go through as well. */
    ghost predicate Finishing(e: Option<Evidence>)
      reads receipt
    {
      && e.Some? && Helpful(Outside(), Manifest()) && ShowsAll(e.value) && |receipt.stages| == STAGES
      && IsDone(receipt.stages[REBOOT_PROOF]) && !IsDone(receipt.stages[NATIVE])
    }

    twostate predicate Still()
      reads this, receipt
    {
      receipt.Value() == old(receipt.Value()) && history == old(history) && saved == old(saved)
    }

    /** The last receipt written has this stage done. */
    ghost predicate OnRecord(stage: nat)
      reads this
    {
      stage < |saved.stages| && IsDone(saved.stages[stage])
    }

    lemma {:induction false} RunningIsFiled()
      requires Running()
      ensures Filed()
    {
      ReachesTheFile(history, receipt.Value());
    }

    /** The receipt in memory has made one step. */
    lemma {:induction false} Stepped(before: Receipt, m: Move)
      requires history != [] && saved == history[|history| - 1] && |before.stages| == STAGES && |asked| == clock
      requires Reachable(history, before) && !m.WriteMove? && !m.ReloadMove?
      requires Changed(before, m) == Some(receipt.Value())
      ensures Running()
    {
      ReachesInMemory(history, before, m, receipt.Value());
    }

    /** Only bookkeeping fields have changed. */
    lemma {:induction false} Noted(before: Receipt)
      requires history != [] && saved == history[|history| - 1] && |before.stages| == STAGES && |asked| == clock
      requires Reachable(history, before) && OnlyNotes(before, receipt.Value())
      ensures Running()
    {
      Stepped(before, NoteMove(receipt.Value()));
    }

    /** The evidence at hand, if any, is what the current epoch is bound to. */
    ghost predicate Bound(e: Option<Evidence>)
      reads this, receipt
    {
      e.Some? ==> receipt.discovery == Some(Discovery(e.value.epoch, e.value))
    }

    method Next(tool: Tool) returns (o: Outcome)
      modifies this`clock, this`asked
      ensures o == outcomes(old(clock)) && clock == old(clock) + 1 && asked == old(asked) + [tool]
    {
      o := outcomes(clock);
      clock := clock + 1;
      asked := asked + [tool];
    }

    /** `write_receipt`: what is not valid is never written. */
    method Persist() returns (exit: Exit)
      requires Running()
      modifies this
      ensures Running() && old(history) <= history
      ensures exit.Continue? <==> Valid(receipt.Value()) && outcomes(old(clock)).succeeds
      ensures exit.Continue? || exit == Failed(2)
      ensures clock == old(clock) + (if Valid(receipt.Value()) then 1 else 0)
      ensures asked == if Valid(receipt.Value()) then old(asked) + [ReceiptFile] else old(asked)
      ensures if exit.Continue? then saved == receipt.Value() && history == old(history) + [saved]
              else saved == old(saved) && history == old(history)
    {
      if !Valid(receipt.Value()) {
        return Failed(2);
      }
      var o := Next(ReceiptFile);
      if !o.succeeds {
        return Failed(2);
      }
      ReachesTheFile(history, receipt.Value());
      saved := receipt.Value();
      history := history + [saved];
      return Continue;
    }

    method HandOff() returns (exit: Exit)
      requires Running()
      modifies this
      ensures Running() && old(history) <= history && !exit.Continue? && old(asked) <= asked
      ensures saved == old(saved) || saved == receipt.Value()
      ensures history == old(history) || history == old(history) + [receipt.Value()]
    {
      exit := Persist();
      if exit.Continue? {
        exit := Handoff;
      }
    }

    method AcceptEvidence(e: Evidence, ghost at: nat) returns (exit: Exit)
      requires Running() && at <= COMPONENT
      modifies receipt
      ensures Running() && (exit.Continue? <==> exit != Failed(2)) && (exit.Continue? || exit == Failed(2))
      ensures exit.Continue? ==> Bound(Some(e))
      ensures exit.Continue? <==> Accept(old(receipt.Value()), e).Ok?
      ensures exit.Continue? ==> receipt.Value() == Accept(old(receipt.Value()), e).value
      ensures !exit.Continue? ==> receipt.Value() == old(receipt.Value())
      ensures Deserved(Outside(), old(Here()), Here(), Some(e), at, at)
      ensures old(Valid(receipt.Value())) ==> Valid(receipt.Value())
      ensures receipt.identity == old(receipt.identity)
      ensures receipt.disposition == old(receipt.disposition) || receipt.disposition.PendingRuntime?
    {
      var ok := receipt.AcceptEvidence(e);
      ghost var before := old(receipt.Value());
      EvidenceEarnsNothing(Outside(), before, e, asked, |asked|, Some(e), at);
      if !ok {
        return Failed(2);
      }
      EveryRunIsGood(history, before);
      AcceptAdvances(before, e);
      Stepped(before, AcceptMove(e));
      if Valid(before) {
        AcceptKeepsValid(before, e);
      }
      return Continue;
    }

    /** A stage that is not the DNS gate is recorded. */
    method Mark(stage: nat, status: Status)
      requires Running() && stage < STAGES && stage != DNS
      modifies receipt`stages
      ensures Running() && receipt.Value() == MarkStage(old(receipt.Value()), stage, status)
    {
      ghost var before := receipt.Value();
      receipt.Mark(stage, status);
      Stepped(before, MarkMove(stage, status));
    }

    /** Several stages at once. */
    method PassThrough(first: nat, last: nat)
      requires Running() && first <= last < DNS
      modifies receipt`stages
      ensures Running()
      ensures forall k :: 0 <= k < STAGES ==>
                receipt.stages[k] == if first <= k <= last then StageRecord(Pass, Some(receipt.epoch))
                                     else old(receipt.stages[k])
    {
      for k := first to last + 1
        invariant Running()
        invariant forall j :: 0 <= j < STAGES ==>
                    receipt.stages[j] == if first <= j < k then StageRecord(Pass, Some(receipt.epoch))
                                         else old(receipt.stages[j])
      {
        Mark(k, Pass);
      }
    }

    method PassAndPersist(first: nat, last: nat) returns (exit: Exit)
      requires Running() && first <= last < DNS
      modifies this, receipt
      ensures Running() && old(history) <= history
      ensures receipt.Value() == old(receipt.Value()).(stages := receipt.stages)
      ensures forall k :: 0 <= k < STAGES ==>
                receipt.stages[k] == if first <= k <= last then StageRecord(Pass, Some(receipt.epoch))
                                     else old(receipt.stages[k])
      ensures WrittenOnce(old(Here()), Here())
      ensures exit.Continue? <==> Valid(receipt.Value()) && outcomes(old(clock)).succeeds
    {
      PassThrough(first, last);
      exit := Persist();
    }

    /** The last part of `_accept_external_runtime`: record the runtime stage by stage. */
    method RecordRuntime(e: Evidence, manifest: string)
      requires Running() && Valid(receipt.Value())
      requires receipt.identity.mode.ExternalEvidence? && receipt.disposition.PendingRuntime?
      modifies receipt
      ensures Running() && Valid(receipt.Value())
      ensures receipt.Value() == WithRuntime(old(receipt.Value()), e, manifest)
    {
      ghost var before := receipt.Value();
      AcceptedRuntimeIsValid(before, e, manifest);
      WriteRuntime(receipt, e, manifest);
      Stepped(before, RuntimeMove(e, manifest));
    }

    /** A runtime accepted earlier: its manifest must still be the one on record, and new evidence may reset it. */
    method ReviewRuntime(e: Option<Evidence>) returns (exit: Exit, settled: bool)
      requires Running() && Valid(receipt.Value()) && receipt.identity.mode.ExternalEvidence?
      requires !receipt.disposition.PendingRuntime?
      modifies this`clock, this`asked, receipt
      ensures Running() && (exit.Continue? ==> Valid(receipt.Value()) && receipt.identity == old(receipt.identity))
      ensures exit.Continue? && !settled ==> e.Some? && receipt.disposition.PendingRuntime?
      ensures exit.Continue? && settled ==> IsDone(receipt.stages[AUTOSTART])
      ensures exit.Continue? ==> outcomes(old(clock)).manifest == old(receipt.endpoint) != None
      ensures Deserved(Outside(), old(Here()), Here(), e, 0, 0)
    {
      ghost var start := Here();
      var disposition := receipt.disposition;
      var o := Next(ManifestFile);
      DeservedIdle(Outside(), start, Here(), e, 0, 0);
      if o.manifest.None? || o.manifest != receipt.endpoint {
        return Failed(2), true;
      }
      if e.None? {
        return Continue, true;
      }
      ghost var reviewed := Here();
      exit := AcceptEvidence(e.value, 0);
      DeservedTogether(Outside(), start, reviewed, Here(), e, 0, 0, 0, 0);
      settled := receipt.disposition == disposition;
    }

    method TakeAndWrite(e: Evidence, manifest: string) returns (exit: Exit)
      requires Running() && Valid(receipt.Value()) && receipt.identity.mode.ExternalEvidence?
      requires receipt.disposition.PendingRuntime?
      modifies this, receipt
      ensures Running() && old(history) <= history && (exit.Continue? ==> Valid(receipt.Value()))
      ensures if Accept(old(receipt.Value()), e).Err? then receipt.Value() == old(receipt.Value()) && !exit.Continue?
              else
                && |Accept(old(receipt.Value()), e).value.stages| == STAGES
                && receipt.Value() == WithRuntime(Accept(old(receipt.Value()), e).value, e, manifest)
      ensures WrittenOnce(old(Here()), Here())
    {
      exit := AcceptEvidence(e, 0);
      if exit.Continue? {
        RecordRuntime(e, manifest);
        exit := Persist();
      }
    }

    /** Evidence that shows the runtime of the manifest just read is accepted, and the runtime recorded. */
    method TakeShown(e: Evidence, manifest: string, ghost start: Stand) returns (exit: Exit)
      requires Running() && Valid(receipt.Value()) && receipt.identity.mode.ExternalEvidence?
      requires receipt.disposition.PendingRuntime? && OnlyAsked(start)
      requires RuntimeShown(Outside(), receipt.identity, asked, |start.asked|, Some(e))
      modifies this, receipt
      ensures Running() && old(history) <= history && (exit.Continue? ==> Valid(receipt.Value()))
      ensures exit.Continue? ==> IsDone(receipt.stages[AUTOSTART]) && receipt.endpoint == Some(manifest)
      ensures Deserved(Outside(), start, Here(), Some(e), 0, COMPONENT)
    {
      ghost var taken := asked;
      exit := TakeAndWrite(e, manifest);
      RuntimeStays(Outside(), start.receipt.identity, taken, asked, |start.asked|, |start.asked|, Some(e));
      if Accept(start.receipt, e).Ok? {
        RuntimeEarned(Outside(), start.receipt, e, manifest, asked, |start.asked|);
        DeservedOnce(Outside(), start, Here(), Some(e), 0, COMPONENT);
      } else {
        DeservedIdle(Outside(), start, Here(), Some(e), 0, COMPONENT);
      }
    }

    method TakeRuntime(e: Option<Evidence>) returns (exit: Exit)
      requires Running() && Valid(receipt.Value()) && receipt.identity.mode.ExternalEvidence?
      requires receipt.disposition.PendingRuntime?
      modifies this, receipt
      ensures Running() && old(history) <= history && (exit.Continue? ==> Valid(receipt.Value()))
      ensures exit.Continue? ==> IsDone(receipt.stages[AUTOSTART])
      ensures Deserved(Outside(), old(Here()), Here(), e, 0, COMPONENT)
    {
      ghost var start := Here();
      if (!receipt.identity.adopt && args.firstRun) || !args.endpointFile {
        exit := HandOff();
        DeservedIdle(Outside(), start, Here(), e, 0, COMPONENT);
        return;
      }
      var o := Next(ManifestFile);
      if o.manifest.None? || !o.slotEnabled {
        DeservedIdle(Outside(), start, Here(), e, 0, COMPONENT);
        return Failed(2);
      }
      SufficientShows(e, receipt.identity, o.manifest.value);
      if !Sufficient(e, receipt.identity.artifact, o.manifest.value, receipt.identity.adopt) {
        exit := HandOff();
        DeservedIdle(Outside(), start, Here(), e, 0, COMPONENT);
        return;
      }
      assert asked[|start.asked|] == ManifestFile;
      exit := TakeShown(e.value, o.manifest.value, start);
    }

    /** `_accept_external_runtime`. */
    method AcceptExternalRuntime(e: Option<Evidence>) returns (exit: Exit)
      requires Running() && Valid(receipt.Value()) && receipt.identity.mode.ExternalEvidence?
      modifies this, receipt
      ensures Running() && old(history) <= history && (exit.Continue? ==> Valid(receipt.Value()))
      ensures exit.Continue? ==> IsDone(receipt.stages[AUTOSTART])
      ensures Deserved(Outside(), old(Here()), Here(), e, 0, COMPONENT)
    {
      ghost var start := Here();
      if !receipt.disposition.PendingRuntime? {
        var settled;
        exit, settled := ReviewRuntime(e);
        if !exit.Continue? || settled {
          DeservedWider(Outside(), start, Here(), e, 0, 0, 0, COMPONENT);
          return;
        }
      } else {
        DeservedIdle(Outside(), start, start, e, 0, 0);
      }
      ghost var reviewed := Here();
      exit := TakeRuntime(e);
      DeservedTogether(Outside(), start, reviewed, Here(), e, 0, 0, 0, COMPONENT);
    }

    /** Since then only questions have been asked. */
    ghost predicate OnlyAsked(start: Stand)
      reads this, receipt
    {
      start.receipt == receipt.Value() && start.history == history && start.asked <= asked
    }

    /** A failed stage is recorded and persisted before the failure is raised. */
    method FailStage(
      stage: nat, code: int, ghost start: Stand, ghost e: Option<Evidence>, ghost first: nat, ghost until: nat)
      returns (exit: Exit)
      requires Running() && stage < STAGES && stage != DNS && OnlyAsked(start)
      modifies this, receipt
      ensures Running() && old(history) <= history && exit.Failed?
      ensures receipt.Value() == MarkStage(start.receipt, stage, Fail)
      ensures Deserved(Outside(), start, Here(), e, first, until)
    {
      Mark(stage, Fail);
      exit := Persist();
      if exit.Continue? {
        exit := Failed(code);
      }
      DeservedFailure(Outside(), start, Here(), stage, e, first, until);
    }

    ghost predicate StageIsNext(stage: nat, e: Option<Evidence>)
      reads receipt
    {
      && Helped(e) && Valid(receipt.Value()) && BOOTSTRAP <= stage <= HEALTHCHECK
      && !IsDone(receipt.stages[stage]) && IsDone(receipt.stages[stage - 1])
      && (stage > SOURCE ==> IsDone(receipt.stages[STRICT_PLAN]))
    }

    method RecordStage(stage: nat, ghost e: Option<Evidence>) returns (exit: Exit)
      requires Running() && stage <= HEALTHCHECK
      modifies this, receipt
      ensures Running() && old(history) <= history
      ensures exit.Continue? <==> Valid(receipt.Value()) && outcomes(old(clock)).succeeds
      ensures WrittenOnce(old(Here()), Here())
      ensures receipt.Value() == StagePassed(old(receipt.Value()), stage)
      ensures old(StageIsNext(stage, e)) ==> exit.Continue? && Helped(e)
    {
      if StageIsNext(stage, e) {
        StageCanPass(receipt.Value(), e.value, Manifest(), stage);
      }
      Mark(stage, Pass);
      ghost var marked := receipt.Value();
      if stage == HEALTHCHECK {
        receipt.final := receipt.final.(xray := true);
      }
      Noted(marked);
      exit := Persist();
    }

    /** The stage is done: its tool was the first to be asked, and succeeded. */
    method PassStage(stage: nat, ghost tool: Tool, ghost start: Stand, ghost e: Option<Evidence>) returns (exit: Exit)
      requires Running() && IsToolOf(stage, tool) && receipt.identity.mode.LocalRouter?
      requires OnlyAsked(start) && asked == start.asked + [tool] && outcomes(|start.asked|).succeeds
      modifies this, receipt
      ensures Running() && old(history) <= history && IsDone(receipt.stages[stage])
      ensures receipt.identity == old(receipt.identity)
      ensures exit.Continue? <==> Valid(receipt.Value()) && outcomes(old(clock)).succeeds
      ensures Deserved(Outside(), start, Here(), e, stage, stage + 1)
      ensures old(StageIsNext(stage, e)) ==> exit.Continue? && Helped(e)
    {
      exit := RecordStage(stage, e);
      ToolEarned(Outside(), start, asked, stage, tool, e);
      DeservedOnce(Outside(), start, Here(), e, stage, stage + 1);
    }

    /** A stage still open: passed exactly if its tool succeeds and the receipt can be written. */
    method AttemptStage(stage: nat, tool: Tool, ghost e: Option<Evidence>) returns (exit: Exit)
      requires Running() && Valid(receipt.Value()) && receipt.identity.mode.LocalRouter?
      requires IsToolOf(stage, tool) && !IsDone(receipt.stages[stage])
      modifies this, receipt
      ensures Running() && old(history) <= history && (exit.Continue? ==> Valid(receipt.Value()))
      ensures receipt.identity == old(receipt.identity)
      ensures Deserved(Outside(), old(Here()), Here(), e, stage, stage + 1)
      ensures exit.Continue? <==>
                outcomes(old(clock)).succeeds && Valid(receipt.Value()) && outcomes(old(clock) + 1).succeeds
      ensures exit.Continue? ==> IsDone(receipt.stages[stage])
      ensures old(Helped(e) && IsDone(receipt.stages[stage - 1])) ==> exit.Continue? && Helped(e)
      ensures !outcomes(old(clock)).succeeds ==>
                exit.Failed? && receipt.Value() == MarkStage(old(receipt.Value()), stage, Fail)
    {
      ghost var start := Here();
      var o := Next(tool);
      if !o.succeeds {
        exit := FailStage(stage, o.code, start, e, stage, stage + 1);
        return;
      }
      exit := PassStage(stage, tool, start, e);
    }

    /** One delegated installation stage. */
    method RunStage(stage: nat, tool: Tool, ghost e: Option<Evidence>) returns (exit: Exit)
      requires Running() && Valid(receipt.Value()) && receipt.identity.mode.LocalRouter?
      requires IsToolOf(stage, tool)
      modifies this, receipt
      ensures Running() && old(history) <= history && (exit.Continue? ==> Valid(receipt.Value()))
      ensures old(InPlace()) ==> exit.Continue? && Still()
      ensures receipt.identity == old(receipt.identity)
      ensures Deserved(Outside(), old(Here()), Here(), e, stage, stage + 1)
      ensures exit.Continue? ==> IsDone(receipt.stages[stage])
      ensures old(Helped(e) && IsDone(receipt.stages[stage - 1])) ==> exit.Continue? && Helped(e)
    {
      if IsDone(receipt.stages[stage]) {
        ghost var start := Here();
        DeservedIdle(Outside(), start, Here(), e, stage, stage + 1);
        return Continue;
      }
      exit := AttemptStage(stage, tool, e);
    }

    /** Network and storage readiness: fresh evidence first, then the preflight tool. */
    method Preflight(e: Option<Evidence>) returns (exit: Exit)
      requires Running() && Valid(receipt.Value()) && receipt.identity.mode.LocalRouter?
      modifies this, receipt
      ensures Running() && old(history) <= history && (exit.Continue? ==> Valid(receipt.Value()))
      ensures old(InPlace()) ==> exit.Continue? && Still()
      ensures receipt.identity == old(receipt.identity)
      ensures Deserved(Outside(), old(Here()), Here(), e, NETWORK, BOOTSTRAP)
      ensures exit.Continue? ==> IsDone(receipt.stages[NETWORK]) && IsDone(receipt.stages[STORAGE])
      ensures old(Helped(e)) ==> exit.Continue? && Helped(e)
    {
      ghost var start := Here();
      if IsDone(receipt.stages[NETWORK]) && IsDone(receipt.stages[STORAGE]) {
        DeservedIdle(Outside(), start, Here(), e, NETWORK, BOOTSTRAP);
        return Continue;
      }
      var stage := if IsDone(receipt.stages[NETWORK]) then STORAGE else NETWORK;
      var record := receipt.stages[stage];
      if e.None? || (record.status.Fail? && record.epoch.Some? && e.value.epoch <= record.epoch.value) {
        exit := HandOff();
        DeservedIdle(Outside(), start, Here(), e, NETWORK, BOOTSTRAP);
        return;
      }
      exit := PreflightOn(stage, e.value);
    }

    /** The tool runs only on evidence of readiness. */
    method PreflightOn(stage: nat, e: Evidence) returns (exit: Exit)
      requires Running() && Valid(receipt.Value()) && stage <= STORAGE && receipt.identity.mode.LocalRouter?
      modifies this, receipt
      ensures Running() && old(history) <= history && (exit.Continue? ==> Valid(receipt.Value()))
      ensures receipt.identity == old(receipt.identity)
      ensures Deserved(Outside(), old(Here()), Here(), Some(e), NETWORK, BOOTSTRAP)
      ensures exit.Continue? ==> IsDone(receipt.stages[NETWORK]) && IsDone(receipt.stages[STORAGE])
      ensures old(Helped(Some(e)) && !IsDone(receipt.stages[STORAGE])) ==> exit.Continue? && Helped(Some(e))
    {
      ghost var start := Here();
      if Helped(Some(e)) {
        UnderwayAccepts(receipt.Value(), e, Manifest());
      }
      exit := AcceptEvidence(e, 0);
      if exit.Continue? {
        ghost var accepted := Here();
        exit := PreflightAccepted(stage, e);
        DeservedTogether(Outside(), start, accepted, Here(), Some(e), NETWORK, NETWORK, NETWORK, BOOTSTRAP);
      } else {
        DeservedWider(Outside(), start, Here(), Some(e), NETWORK, NETWORK, NETWORK, BOOTSTRAP);
      }
    }

    method PassReadiness(ghost start: Stand, ghost e: Evidence) returns (exit: Exit)
      requires Running() && receipt.identity.mode.LocalRouter? && ShowsReadiness(e)
      requires OnlyAsked(start) && asked == start.asked + [PreflightTool] && outcomes(|start.asked|).succeeds
      modifies this, receipt
      ensures Running() && old(history) <= history && (exit.Continue? ==> Valid(receipt.Value()))
      ensures receipt.identity == old(receipt.identity)
      ensures IsDone(receipt.stages[NETWORK]) && IsDone(receipt.stages[STORAGE])
      ensures Deserved(Outside(), start, Here(), Some(e), NETWORK, BOOTSTRAP)
      ensures receipt.Value() == StagesPassed(start.receipt, NETWORK, BOOTSTRAP)
      ensures exit.Continue? <==> Valid(receipt.Value()) && outcomes(old(clock)).succeeds
    {
      exit := PassAndPersist(NETWORK, STORAGE);
      assert receipt.stages == StagesPassed(start.receipt, NETWORK, BOOTSTRAP).stages;
      ReadinessEarned(Outside(), start, receipt.Value(), asked, e);
      DeservedOnce(Outside(), start, Here(), Some(e), NETWORK, BOOTSTRAP);
    }

    method PreflightAccepted(stage: nat, e: Evidence) returns (exit: Exit)
      requires Running() && stage <= STORAGE && receipt.identity.mode.LocalRouter?
      modifies this, receipt
      ensures Running() && old(history) <= history && (exit.Continue? ==> Valid(receipt.Value()))
      ensures receipt.identity == old(receipt.identity)
      ensures Deserved(Outside(), old(Here()), Here(), Some(e), NETWORK, BOOTSTRAP)
      ensures exit.Continue? ==> IsDone(receipt.stages[NETWORK]) && IsDone(receipt.stages[STORAGE])
      ensures old(Valid(receipt.Value()) && Helped(Some(e)) && !IsDone(receipt.stages[STORAGE])) ==>
                exit.Continue? && Helped(Some(e))
    {
      ghost var start := Here();
      GatesShow(e);
      if !(READINESS <= e.passed) {
        exit := HandOff();
        DeservedIdle(Outside(), start, Here(), Some(e), NETWORK, BOOTSTRAP);
        return;
      }
      exit := PreflightReady(stage, e);
    }

    method PreflightReady(stage: nat, e: Evidence) returns (exit: Exit)
      requires Running() && stage <= STORAGE && receipt.identity.mode.LocalRouter? && ShowsReadiness(e)
      modifies this, receipt
      ensures Running() && old(history) <= history && (exit.Continue? ==> Valid(receipt.Value()))
      ensures receipt.identity == old(receipt.identity)
      ensures Deserved(Outside(), old(Here()), Here(), Some(e), NETWORK, BOOTSTRAP)
      ensures exit.Continue? ==> IsDone(receipt.stages[NETWORK]) && IsDone(receipt.stages[STORAGE])
      ensures old(Valid(receipt.Value()) && Helped(Some(e)) && !IsDone(receipt.stages[STORAGE])) ==>
                exit.Continue? && Helped(Some(e))
      ensures !outcomes(old(clock)).succeeds ==>
                exit.Failed? && receipt.Value() == MarkStage(old(receipt.Value()), stage, Fail)
    {
      ghost var start := Here();
      var o := Next(PreflightTool);
      if !o.succeeds {
        exit := FailStage(stage, o.code, start, Some(e), NETWORK, BOOTSTRAP);
        return;
      }
      if Valid(receipt.Value()) && Helped(Some(e)) && !IsDone(receipt.stages[STORAGE]) {
        StagesCanPass(receipt.Value(), e, Manifest(), NETWORK, BOOTSTRAP);
      }
      exit := PassReadiness(start, e);
    }

    ghost predicate ManifestIsNext(manifest: string, e: Option<Evidence>)
      reads receipt
    {
      && Helped(e) && Valid(receipt.Value()) && manifest == Manifest()
      && IsDone(receipt.stages[BOOTSTRAP]) && !IsDone(receipt.stages[STRICT_PLAN])
    }

    method StoreManifest(manifest: string) returns (exit: Exit)
      requires Running()
      modifies this, receipt
      ensures Running() && old(history) <= history
      ensures receipt.Value() == StagesPassed(old(receipt.Value()).(endpoint := Some(manifest)), SOURCE, BACKUP)
      ensures exit.Continue? <==> Valid(receipt.Value()) && outcomes(old(clock)).succeeds
      ensures WrittenOnce(old(Here()), Here())
    {
      ghost var before := receipt.Value();
      receipt.endpoint := Some(manifest);
      Noted(before);
      exit := PassAndPersist(SOURCE, STRICT_PLAN);
      assert receipt.stages == StagesPassed(before.(endpoint := Some(manifest)), SOURCE, BACKUP).stages;
    }

    method WriteManifest(manifest: string, ghost e: Option<Evidence>) returns (exit: Exit)
      requires Running()
      modifies this, receipt
      ensures Running() && old(history) <= history && (exit.Continue? ==> Valid(receipt.Value()))
      ensures receipt.Value() == StagesPassed(old(receipt.Value()).(endpoint := Some(manifest)), SOURCE, BACKUP)
      ensures WrittenOnce(old(Here()), Here())
      ensures old(ManifestIsNext(manifest, e)) ==> exit.Continue? && Helped(e)
    {
      if ManifestIsNext(manifest, e) {
        ManifestCanBeTaken(receipt.Value(), e.value, manifest);
      }
      exit := StoreManifest(manifest);
    }

    /** The manifest the setup has produced becomes part of the receipt, and its stages pass. */
    method TakeManifest(manifest: string, ghost start: Stand, ghost e: Option<Evidence>) returns (exit: Exit)
      requires Running() && receipt.identity.mode.LocalRouter?
      requires OnlyAsked(start) && asked == start.asked + [SetupTool] + [ManifestFile]
      requires outcomes(|start.asked|).succeeds && outcomes(|start.asked| + 1).manifest == Some(manifest)
      modifies this, receipt
      ensures Running() && old(history) <= history && (exit.Continue? ==> Valid(receipt.Value()))
      ensures IsDone(receipt.stages[STRICT_PLAN]) && receipt.endpoint == Some(manifest)
      ensures receipt.identity == old(receipt.identity)
      ensures Deserved(Outside(), start, Here(), e, SOURCE, BACKUP)
      ensures old(ManifestIsNext(manifest, e)) ==> exit.Continue? && Helped(e)
    {
      exit := WriteManifest(manifest, e);
      SetupEarned(Outside(), start, receipt.Value(), asked, e);
      DeservedOnce(Outside(), start, Here(), e, SOURCE, BACKUP);
    }

    /** The manifest at hand must be the one on record. */
    method ReviewManifest(ghost e: Option<Evidence>) returns (exit: Exit)
      requires Running() && Valid(receipt.Value())
      modifies this`clock, this`asked
      ensures Running() && (exit.Continue? <==> outcomes(old(clock)).manifest == receipt.endpoint != None)
      ensures Deserved(Outside(), old(Here()), Here(), e, SOURCE, BACKUP)
    {
      ghost var start := Here();
      var o := Next(ManifestFile);
      DeservedIdle(Outside(), start, Here(), e, SOURCE, BACKUP);
      if o.manifest.None? {
        return Failed(1);
      }
      return if o.manifest == receipt.endpoint then Continue else Failed(2);
    }

    /** Source, generation and strict plan are one delegated setup; its manifest becomes part of the receipt. */
    method Setup(ghost e: Option<Evidence>) returns (exit: Exit)
      requires Running() && Valid(receipt.Value()) && receipt.identity.mode.LocalRouter?
      modifies this, receipt
      ensures Running() && old(history) <= history && (exit.Continue? ==> Valid(receipt.Value()))
      ensures old(InPlace()) ==> exit.Continue? && Still()
      ensures receipt.identity == old(receipt.identity)
      ensures Deserved(Outside(), old(Here()), Here(), e, SOURCE, BACKUP)
      ensures exit.Continue? ==>
                && IsDone(receipt.stages[STRICT_PLAN])
                && receipt.endpoint.Some? && receipt.endpoint == outcomes(
                     old(clock) + (if old(IsDone(receipt.stages[STRICT_PLAN])) then 0 else 1)).manifest
      ensures old(Helped(e) && IsDone(receipt.stages[BOOTSTRAP])) ==> exit.Continue? && Helped(e)
    {
      if IsDone(receipt.stages[STRICT_PLAN]) {
        exit := ReviewManifest(e);
      } else {
        exit := SetUp(e);
      }
    }

    method SetUp(ghost e: Option<Evidence>) returns (exit: Exit)
      requires Running() && receipt.identity.mode.LocalRouter?
      modifies this, receipt
      ensures Running() && old(history) <= history && (exit.Continue? ==> Valid(receipt.Value()))
      ensures receipt.identity == old(receipt.identity)
      ensures Deserved(Outside(), old(Here()), Here(), e, SOURCE, BACKUP)
      ensures exit.Continue? ==>
                && outcomes(old(clock)).succeeds && IsDone(receipt.stages[STRICT_PLAN])
                && receipt.endpoint == outcomes(old(clock) + 1).manifest != None
      ensures old(Valid(receipt.Value()) && Helped(e) && IsDone(receipt.stages[BOOTSTRAP])
                  && !IsDone(receipt.stages[STRICT_PLAN])) ==>
                exit.Continue? && Helped(e)
      ensures !outcomes(old(clock)).succeeds ==>
                exit.Failed? && receipt.Value() == MarkStage(old(receipt.Value()), SOURCE, Fail)
    {
      ghost var start := Here();
      var tool := Next(SetupTool);
      if !tool.succeeds {
        exit := FailStage(SOURCE, tool.code, start, e, SOURCE, BACKUP);
        return;
      }
      var o := Next(ManifestFile);
      if o.manifest.None? {
        DeservedIdle(Outside(), start, Here(), e, SOURCE, BACKUP);
        return Failed(1);
      }
      exit := TakeManifest(o.manifest.value, start, e);
    }

    method MarkAutostart()
      requires Running()
      modifies receipt`disposition, receipt`stages, receipt`final
      ensures Running() && receipt.Value() == AutostartPassed(old(receipt.Value()))
    {
      Mark(AUTOSTART, Pass);
      ghost var marked := receipt.Value();
      receipt.disposition := Executed;
      receipt.final := receipt.final.(installation := true, autostart := true);
      Noted(marked);
    }

    method RecordAutostart() returns (exit: Exit)
      requires Running()
      modifies this, receipt
      ensures Running() && old(history) <= history && (exit.Continue? ==> Valid(receipt.Value()))
      ensures IsDone(receipt.stages[AUTOSTART])
      ensures OnlyStages(old(receipt.Value()), receipt.Value(), AUTOSTART, COMPONENT)
      ensures WrittenOnce(old(Here()), Here())
      ensures receipt.Value() == AutostartPassed(old(receipt.Value()))
      ensures exit.Continue? <==> Valid(receipt.Value()) && outcomes(old(clock)).succeeds
    {
      MarkAutostart();
      exit := Persist();
    }

    method PassAutostart(ghost start: Stand, ghost e: Option<Evidence>) returns (exit: Exit)
      requires Running() && Valid(receipt.Value()) && receipt.identity.mode.LocalRouter?
      requires OnlyAsked(start) && asked == start.asked + [AutostartTool]
      requires outcomes(|start.asked|).succeeds && outcomes(|start.asked|).verified
      modifies this, receipt
      ensures Running() && old(history) <= history && (exit.Continue? ==> Valid(receipt.Value()))
      ensures IsDone(receipt.stages[AUTOSTART])
      ensures Deserved(Outside(), start, Here(), e, AUTOSTART, COMPONENT)
      ensures old(Helped(e) && IsDone(receipt.stages[HEALTHCHECK]) && !IsDone(receipt.stages[AUTOSTART])) ==>
                exit.Continue? && Helped(e)
    {
      if Helped(e) && IsDone(receipt.stages[HEALTHCHECK]) && !IsDone(receipt.stages[AUTOSTART]) {
        AutostartCanPass(receipt.Value(), e.value, Manifest());
      }
      exit := RecordAutostart();
      AutostartEarned(Outside(), start, receipt.Value(), asked, e);
      DeservedOnce(Outside(), start, Here(), e, AUTOSTART, COMPONENT);
    }

    method EnableAutostart(ghost e: Option<Evidence>) returns (exit: Exit)
      requires Running() && Valid(receipt.Value()) && receipt.identity.mode.LocalRouter?
      modifies this, receipt
      ensures Running() && old(history) <= history && (exit.Continue? ==> Valid(receipt.Value()))
      ensures exit.Continue? ==> IsDone(receipt.stages[AUTOSTART])
      ensures old(InPlace()) ==> exit.Continue? && Still()
      ensures Deserved(Outside(), old(Here()), Here(), e, AUTOSTART, COMPONENT)
      ensures old(Helped(e) && IsDone(receipt.stages[HEALTHCHECK])) ==> exit.Continue? && Helped(e)
      ensures !exit.Continue? && !(outcomes(old(clock)).succeeds && outcomes(old(clock)).verified) ==>
                exit.Failed? && receipt.Value() == MarkStage(old(receipt.Value()), AUTOSTART, Fail)
    {
      ghost var start := Here();
      if IsDone(receipt.stages[AUTOSTART]) {
        DeservedIdle(Outside(), start, Here(), e, AUTOSTART, COMPONENT);
        return Continue;
      }
      var o := Next(AutostartTool);
      if !o.succeeds || !o.verified {
        exit := FailStage(AUTOSTART, if o.succeeds then 1 else o.code, start, e, AUTOSTART, COMPONENT);
        return;
      }
      exit := PassAutostart(start, e);
    }

    /** Backup, install and healthcheck. */
    method RunTools(ghost e: Option<Evidence>) returns (exit: Exit)
      requires Running() && Valid(receipt.Value()) && receipt.identity.mode.LocalRouter?
      modifies this, receipt
      ensures Running() && old(history) <= history && (exit.Continue? ==> Valid(receipt.Value()))
      ensures old(InPlace()) ==> exit.Continue? && Still()
      ensures receipt.identity == old(receipt.identity)
      ensures Deserved(Outside(), old(Here()), Here(), e, BACKUP, AUTOSTART)
      ensures old(Helped(e) && IsDone(receipt.stages[STRICT_PLAN])) ==> exit.Continue? && Helped(e)
      ensures exit.Continue? ==> IsDone(receipt.stages[HEALTHCHECK])
    {
      ghost var start := Here();
      exit := BackUpAndInstall(e);
      if exit.Continue? {
        ghost var installed := Here();
        exit := RunStage(HEALTHCHECK, HealthcheckTool, e);
        DeservedTogether(Outside(), start, installed, Here(), e, BACKUP, HEALTHCHECK, HEALTHCHECK, AUTOSTART);
      } else {
        DeservedWider(Outside(), start, Here(), e, BACKUP, HEALTHCHECK, BACKUP, AUTOSTART);
      }
    }

    method BackUp(ghost e: Option<Evidence>) returns (exit: Exit)
      requires Running() && Valid(receipt.Value()) && receipt.identity.mode.LocalRouter?
      modifies this, receipt
      ensures Running() && old(history) <= history && (exit.Continue? ==> Valid(receipt.Value()))
      ensures old(InPlace()) ==> exit.Continue? && Still()
      ensures receipt.identity == old(receipt.identity)
      ensures Deserved(Outside(), old(Here()), Here(), e, BACKUP, INSTALL)
      ensures exit.Continue? ==> IsDone(receipt.stages[BACKUP])
      ensures old(Helped(e) && IsDone(receipt.stages[STRICT_PLAN])) ==> exit.Continue? && Helped(e)
    {
      exit := RunStage(BACKUP, BackupTool, e);
    }

    method BackUpAndInstall(ghost e: Option<Evidence>) returns (exit: Exit)
      requires Running() && Valid(receipt.Value()) && receipt.identity.mode.LocalRouter?
      modifies this, receipt
      ensures Running() && old(history) <= history && (exit.Continue? ==> Valid(receipt.Value()))
      ensures old(InPlace()) ==> exit.Continue? && Still()
      ensures receipt.identity == old(receipt.identity)
      ensures Deserved(Outside(), old(Here()), Here(), e, BACKUP, HEALTHCHECK)
      ensures old(Helped(e) && IsDone(receipt.stages[STRICT_PLAN])) ==> exit.Continue? && Helped(e)
      ensures exit.Continue? ==> IsDone(receipt.stages[INSTALL])
    {
      ghost var start := Here();
      exit := BackUp(e);
      if exit.Continue? {
        ghost var saved := Here();
        exit := RunStage(INSTALL, InstallTool, e);
        DeservedTogether(Outside(), start, saved, Here(), e, BACKUP, INSTALL, INSTALL, HEALTHCHECK);
      } else {
        DeservedWider(Outside(), start, Here(), e, BACKUP, INSTALL, BACKUP, HEALTHCHECK);
      }
    }

    method PreflightAndBootstrap(e: Option<Evidence>) returns (exit: Exit)
      requires Running() && Valid(receipt.Value()) && receipt.identity.mode.LocalRouter?
      modifies this, receipt
      ensures Running() && old(history) <= history && (exit.Continue? ==> Valid(receipt.Value()))
      ensures old(InPlace()) ==> exit.Continue? && Still()
      ensures receipt.identity == old(receipt.identity)
      ensures Deserved(Outside(), old(Here()), Here(), e, NETWORK, SOURCE)
      ensures old(Helped(e)) ==> exit.Continue? && Helped(e)
      ensures exit.Continue? ==> IsDone(receipt.stages[BOOTSTRAP])
    {
      ghost var start := Here();
      exit := Preflight(e);
      if exit.Continue? {
        ghost var ready := Here();
        exit := RunStage(BOOTSTRAP, BootstrapTool, e);
        DeservedTogether(Outside(), start, ready, Here(), e, NETWORK, BOOTSTRAP, BOOTSTRAP, SOURCE);
      } else {
        DeservedWider(Outside(), start, Here(), e, NETWORK, BOOTSTRAP, NETWORK, SOURCE);
      }
    }

    method SetUpAndInstall(ghost e: Option<Evidence>) returns (exit: Exit)
      requires Running() && Valid(receipt.Value()) && receipt.identity.mode.LocalRouter?
      modifies this, receipt
      ensures Running() && old(history) <= history && (exit.Continue? ==> Valid(receipt.Value()))
      ensures old(InPlace()) ==> exit.Continue? && Still()
      ensures receipt.identity == old(receipt.identity)
      ensures Deserved(Outside(), old(Here()), Here(), e, SOURCE, AUTOSTART)
      ensures old(Helped(e) && IsDone(receipt.stages[BOOTSTRAP])) ==> exit.Continue? && Helped(e)
      ensures exit.Continue? ==> IsDone(receipt.stages[HEALTHCHECK])
    {
      ghost var start := Here();
      exit := Setup(e);
      if exit.Continue? {
        ghost var planned := Here();
        exit := RunTools(e);
        DeservedTogether(Outside(), start, planned, Here(), e, SOURCE, BACKUP, BACKUP, AUTOSTART);
      } else {
        DeservedWider(Outside(), start, Here(), e, SOURCE, BACKUP, SOURCE, AUTOSTART);
      }
    }

    /** The local installation, stage by stage. */
    method RunLocally(e: Option<Evidence>) returns (exit: Exit)
      requires Running() && Valid(receipt.Value()) && receipt.identity.mode.LocalRouter?
      modifies this, receipt
      ensures Running() && old(history) <= history && (exit.Continue? ==> Valid(receipt.Value()))
      ensures old(InPlace()) ==> exit.Continue? && Still()
      ensures receipt.identity == old(receipt.identity)
      ensures Deserved(Outside(), old(Here()), Here(), e, NETWORK, AUTOSTART)
      ensures old(Helped(e)) ==> exit.Continue? && Helped(e)
      ensures exit.Continue? ==> IsDone(receipt.stages[HEALTHCHECK])
    {
      ghost var start := Here();
      exit := PreflightAndBootstrap(e);
      if exit.Continue? {
        ghost var bootstrapped := Here();
        exit := SetUpAndInstall(e);
        DeservedTogether(Outside(), start, bootstrapped, Here(), e, NETWORK, SOURCE, SOURCE, AUTOSTART);
      } else {
        DeservedWider(Outside(), start, Here(), e, NETWORK, SOURCE, NETWORK, AUTOSTART);
      }
    }

    method InstallLocally(e: Option<Evidence>) returns (exit: Exit)
      requires Running() && Valid(receipt.Value()) && receipt.identity.mode.LocalRouter?
      modifies this, receipt
      ensures Running() && old(history) <= history && (exit.Continue? ==> Valid(receipt.Value()))
      ensures exit.Continue? ==> IsDone(receipt.stages[AUTOSTART])
      ensures old(InPlace()) ==> exit.Continue? && Still()
      ensures Deserved(Outside(), old(Here()), Here(), e, NETWORK, COMPONENT)
      ensures old(Helped(e)) ==> exit.Continue? && Helped(e)
    {
      ghost var start := Here();
      exit := RunLocally(e);
      if exit.Continue? {
        ghost var healthy := Here();
        exit := EnableAutostart(e);
        DeservedTogether(Outside(), start, healthy, Here(), e, NETWORK, AUTOSTART, AUTOSTART, COMPONENT);
      } else {
        DeservedWider(Outside(), start, Here(), e, NETWORK, AUTOSTART, NETWORK, COMPONENT);
      }
    }

    /** `_run_installation_stages`. */
    method RunInstallation(e: Option<Evidence>) returns (exit: Exit)
      requires Running() && Valid(receipt.Value())
      modifies this, receipt
      ensures Running() && old(history) <= history && (exit.Continue? ==> Valid(receipt.Value()))
      ensures exit.Continue? ==> IsDone(receipt.stages[AUTOSTART])
      ensures old(InPlace()) ==> exit.Continue? && Still()
      ensures Deserved(Outside(), old(Here()), Here(), e, NETWORK, COMPONENT)
      ensures old(Helped(e)) ==> exit.Continue? && Helped(e)
    {
      if receipt.identity.mode.ExternalEvidence? {
        exit := AcceptExternalRuntime(e);
      } else {
        exit := InstallLocally(e);
      }
    }

    // ---- Component and reboot ----

    /** The component stage is done, and the reboot decision on record. */
    method RecordComponent(reboot: bool) returns (exit: Exit)
      requires Running() && Valid(receipt.Value()) && !IsDone(receipt.stages[COMPONENT])
      modifies this, receipt
      ensures Running() && old(history) <= history && (exit.Continue? ==> Valid(receipt.Value()) && OnRecord(COMPONENT))
      ensures OnlyStages(old(receipt.Value()), receipt.Value(), COMPONENT, REBOOT) && IsDone(receipt.stages[COMPONENT])
      ensures receipt.discovery == old(receipt.discovery) && receipt.rebootRequired == Some(reboot)
      ensures exit.Continue? <==> old(Installed(receipt.Value())) && outcomes(old(clock)).succeeds
      ensures !exit.Continue? ==> exit == Failed(2) && history == old(history) && saved == old(saved)
      ensures WrittenOnce(old(Here()), Here())
      ensures receipt.Value() == MarkStage(old(receipt.Value()).(rebootRequired := Some(reboot)), COMPONENT, Pass)
    {
      ghost var before := receipt.Value();
      ComponentPersistsIff(before, reboot);
      receipt.rebootRequired := Some(reboot);
      Noted(before);
      Mark(COMPONENT, Pass);
      exit := Persist();
    }

    /** The component stage: inspected, installed, and the reboot decision on record. */
    method ProveComponent(e: Option<Evidence>) returns (exit: Exit)
      requires Running() && Valid(receipt.Value()) && Bound(e)
      modifies this, receipt
      ensures Running() && old(history) <= history && (exit.Continue? ==> Valid(receipt.Value()) && Bound(e))
      ensures exit.Continue? ==> IsDone(receipt.stages[COMPONENT])
      ensures exit.Continue? && !old(IsDone(receipt.stages[COMPONENT])) ==>
                e.Some? && e.value.componentPresent && ProxyComponent in e.value.passed
                && receipt.rebootRequired == Some(e.value.componentReboot)
      ensures exit.Continue? && old(OnRecord(COMPONENT)) == old(IsDone(receipt.stages[COMPONENT])) ==>
              OnRecord(COMPONENT)
      ensures Deserved(Outside(), old(Here()), Here(), e, COMPONENT, REBOOT)
      ensures !old(IsDone(receipt.stages[COMPONENT])) && e.Some? && e.value.componentPresent
              && ProxyComponent in e.value.passed ==>
                && (exit.Continue? <==> old(Installed(receipt.Value())) && outcomes(old(clock)).succeeds)
                && (!exit.Continue? ==> exit == Failed(2) && history == old(history) && saved == old(saved))
      ensures old(Helped(e) && IsDone(receipt.stages[AUTOSTART])) ==> exit.Continue? && Helped(e)
    {
      ghost var start := Here();
      if IsDone(receipt.stages[COMPONENT]) {
        DeservedIdle(Outside(), start, Here(), e, COMPONENT, REBOOT);
        return Continue;
      }
      if e.None? || !e.value.componentPresent {
        exit := HandOff();
        DeservedIdle(Outside(), start, Here(), e, COMPONENT, REBOOT);
        return;
      }
      if ProxyComponent !in e.value.passed {
        DeservedIdle(Outside(), start, Here(), e, COMPONENT, REBOOT);
        return Failed(1);
      }
      exit := RecordComponent(e.value.componentReboot);
      ComponentEarned(Outside(), start.receipt, receipt.Value(), asked, |start.asked|, e.value);
      DeservedOnce(Outside(), start, Here(), e, COMPONENT, REBOOT);
    }

    method MarkSkipped()
      requires Running()
      modifies receipt`stages
      ensures Running() && receipt.Value() == RebootSkipped(old(receipt.Value()))
    {
      Mark(REBOOT, Skipped);
      Mark(REBOOT_PROOF, Skipped);
    }

    method SkipReboot(ghost e: Option<Evidence>) returns (exit: Exit)
      requires Running() && receipt.rebootRequired != Some(true)
      modifies this, receipt
      ensures Running() && old(history) <= history && (exit.Continue? ==> Valid(receipt.Value()))
      ensures receipt.discovery == old(receipt.discovery)
      ensures exit.Continue? ==> receipt.stages[REBOOT].status.Skipped?
      ensures old(OnRecord(COMPONENT) && IsDone(receipt.stages[COMPONENT])) ==> OnRecord(COMPONENT)
      ensures Deserved(Outside(), old(Here()), Here(), e, REBOOT, NATIVE)
      ensures receipt.Value() == RebootSkipped(old(receipt.Value()))
      ensures exit.Continue? <==> Valid(receipt.Value()) && outcomes(old(clock)).succeeds
    {
      ghost var start := Here();
      MarkSkipped();
      exit := Persist();
      RebootEarned(Outside(), start.receipt, receipt.Value(), asked, |start.asked|, e);
      DeservedOnce(Outside(), start, Here(), e, REBOOT, NATIVE);
    }

    /** The reboot is dated by the current epoch. */
    method NoteReboot()
      requires Running()
      modifies receipt
      ensures Running() && receipt.stages[REBOOT].status.Pass?
      ensures OnlyStages(old(receipt.Value()), receipt.Value(), REBOOT, REBOOT_PROOF)
      ensures receipt.rebootRequired == old(receipt.rebootRequired) && receipt.discovery == old(receipt.discovery)
    {
      Mark(REBOOT, Pass);
      ghost var marked := receipt.Value();
      receipt.completedReboot := Some(receipt.epoch);
      Noted(marked);
    }

    method PassRebootProof() returns (exit: Exit)
      requires Running()
      modifies this, receipt
      ensures Running() && old(history) <= history
      ensures exit.Continue? ==> Valid(receipt.Value()) && saved == receipt.Value()
      ensures OnlyStages(old(receipt.Value()), receipt.Value(), REBOOT_PROOF, NATIVE)
      ensures receipt.stages[REBOOT_PROOF].status.Pass? && receipt.discovery == old(receipt.discovery)
      ensures receipt.rebootRequired == old(receipt.rebootRequired)
      ensures saved == old(saved) || saved == receipt.Value()
      ensures WrittenOnce(old(Here()), Here())
    {
      Mark(REBOOT_PROOF, Pass);
      exit := Persist();
    }

    /** Without the full proof nothing is written. */
    method RecordReboot(proven: bool, ghost e: Evidence) returns (exit: Exit)
      requires Running() && receipt.rebootRequired == Some(true) && e.rebootCompleted && e.change.RebootChange?
      requires proven ==> ShowsRecovery(e)
      requires !IsDone(receipt.stages[REBOOT_PROOF])
      modifies this, receipt
      ensures Running() && old(history) <= history && (exit.Continue? ==> Valid(receipt.Value()))
      ensures receipt.discovery == old(receipt.discovery)
      ensures exit.Continue? ==> proven && receipt.stages[REBOOT].status.Pass?
      ensures old(OnRecord(COMPONENT) && IsDone(receipt.stages[COMPONENT])) ==> OnRecord(COMPONENT)
      ensures Deserved(Outside(), old(Here()), Here(), Some(e), REBOOT, NATIVE)
    {
      ghost var start := Here();
      NoteReboot();
      exit := Failed(1);
      if proven {
        exit := PassRebootProof();
      }
      RebootEarned(Outside(), start.receipt, receipt.Value(), asked, |start.asked|, Some(e));
      DeservedOnce(Outside(), start, Here(), Some(e), REBOOT, NATIVE);
    }

    /** The reboot stage: skipped when not needed, otherwise proven by evidence from a reboot epoch. Authorised but
        without evidence there is nothing to look at, and the run stops without writing. */
    method ProveReboot(e: Option<Evidence>) returns (exit: Exit)
      requires Running() && Valid(receipt.Value()) && Bound(e)
      modifies this, receipt
      ensures Running() && old(history) <= history && (exit.Continue? ==> Valid(receipt.Value()) && Bound(e))
      ensures exit.Continue? ==> IsDone(receipt.stages[REBOOT])
      ensures exit.Continue? && !old(IsDone(receipt.stages[REBOOT])) && old(receipt.rebootRequired) == Some(true) ==>
                e.Some? && e.value.rebootCompleted && e.value.change.RebootChange? && POST_REBOOT <= e.value.passed
      ensures old(OnRecord(COMPONENT) && IsDone(receipt.stages[COMPONENT])) ==> OnRecord(COMPONENT)
      ensures Deserved(Outside(), old(Here()), Here(), e, REBOOT, NATIVE)
      ensures old(Helped(e) && IsDone(receipt.stages[COMPONENT])) ==> exit.Continue? && Finishing(e)
    {
      ghost var start := Here();
      if IsDone(receipt.stages[REBOOT]) {
        DeservedIdle(Outside(), start, Here(), e, REBOOT, NATIVE);
        return Continue;
      }
      if receipt.rebootRequired != Some(true) {
        if IsDone(receipt.stages[COMPONENT]) {
          RebootCanBeSkipped(receipt.Value());
        }
        exit := SkipReboot(e);
        return;
      }
      if e.Some? && e.value.rebootCompleted {
        exit := AcceptReboot(e.value);
        return;
      }
      if !receipt.mayReboot || e.Some? {
        exit := HandOff();
        DeservedIdle(Outside(), start, Here(), e, REBOOT, NATIVE);
        return;
      }
      DeservedIdle(Outside(), start, Here(), e, REBOOT, NATIVE);
      return Crashed;
    }

    /** Completion has to be of a reboot epoch. */
    method AcceptReboot(e: Evidence) returns (exit: Exit)
      requires Running() && Valid(receipt.Value()) && e.rebootCompleted
      requires receipt.rebootRequired == Some(true) && !IsDone(receipt.stages[REBOOT])
      modifies this, receipt
      ensures Running() && old(history) <= history && (exit.Continue? ==> Valid(receipt.Value()))
      ensures receipt.discovery == old(receipt.discovery)
      ensures exit.Continue? ==>
                receipt.stages[REBOOT].status.Pass? && e.change.RebootChange? && POST_REBOOT <= e.passed
      ensures old(OnRecord(COMPONENT) && IsDone(receipt.stages[COMPONENT])) ==> OnRecord(COMPONENT)
      ensures Deserved(Outside(), old(Here()), Here(), Some(e), REBOOT, NATIVE)
    {
      if !e.change.RebootChange? || e.epoch < 1 {
        ghost var start := Here();
        DeservedIdle(Outside(), start, Here(), Some(e), REBOOT, NATIVE);
        return Failed(2);
      }
      GatesShow(e);
      assert !IsDone(receipt.stages[REBOOT_PROOF]);
      exit := RecordReboot(POST_REBOOT <= e.passed, e);
    }

    /** Accepted evidence is written before anything is done with it. */
    method WriteAccepted(e: Evidence) returns (exit: Exit)
      requires Running() && Valid(receipt.Value())
      modifies this, receipt
      ensures Running() && old(history) <= history && (exit.Continue? || exit == Failed(2))
      ensures exit.Continue? <==> Accept(old(receipt.Value()), e).Ok? && outcomes(old(clock)).succeeds
      ensures exit.Continue? ==>
                && Valid(receipt.Value()) && Bound(Some(e)) && clock == old(clock) + 1
                && receipt.Value() == saved == Accept(old(receipt.Value()), e).value
                && history == old(history) + [saved]
      ensures Deserved(Outside(), old(Here()), Here(), Some(e), COMPONENT, COMPONENT)
      ensures old(Helped(Some(e)) && IsDone(receipt.stages[AUTOSTART])) ==>
                exit.Continue? && Helped(Some(e)) && IsDone(receipt.stages[AUTOSTART])
    {
      ghost var start := Here();
      if Helped(Some(e)) {
        UnderwayAccepts(receipt.Value(), e, Manifest());
      }
      exit := AcceptEvidence(e, COMPONENT);
      ghost var accepted := asked;
      if exit.Continue? {
        exit := Persist();
        EarnedStays(Outside(), start.receipt, receipt.Value(), accepted, asked, |start.asked|, Some(e), COMPONENT,
                    COMPONENT, COMPONENT, COMPONENT);
        DeservedOnce(Outside(), start, Here(), Some(e), COMPONENT, COMPONENT);
      }
    }

    /** Component, then reboot. */
    method ProveComponentAndReboot(e: Option<Evidence>) returns (exit: Exit)
      requires Running() && Valid(receipt.Value()) && Bound(e)
      modifies this, receipt
      ensures Running() && old(history) <= history && (exit.Continue? ==> Valid(receipt.Value()) && Bound(e))
      ensures exit.Continue? ==> IsDone(receipt.stages[REBOOT])
      ensures !old(IsDone(receipt.stages[COMPONENT])) && e.Some? && e.value.componentPresent
              && ProxyComponent in e.value.passed ==>
                && (old(Installed(receipt.Value())) && outcomes(old(clock)).succeeds && !old(OnRecord(COMPONENT)) ==>
                      OnRecord(COMPONENT))
                && (!old(Installed(receipt.Value())) ==>
                      exit == Failed(2) && history == old(history) && saved == old(saved))
      ensures Deserved(Outside(), old(Here()), Here(), e, COMPONENT, NATIVE)
      ensures old(Helped(e) && IsDone(receipt.stages[AUTOSTART])) ==> exit.Continue? && Finishing(e)
    {
      ghost var start := Here();
      exit := ProveComponent(e);
      if exit.Continue? {
        ghost var proven := Here();
        exit := ProveReboot(e);
        DeservedTogether(Outside(), start, proven, Here(), e, COMPONENT, REBOOT, REBOOT, NATIVE);
      } else {
        DeservedWider(Outside(), start, Here(), e, COMPONENT, REBOOT, COMPONENT, NATIVE);
      }
    }

    /** `_component_and_reboot`. With a present, proven component and granted writes the component stage gets on record
        exactly when the installation is complete once the evidence is accepted; otherwise the write of that stage is
        refused, and the last receipt written is the one the evidence has reset. */
    method RunComponent(e: Option<Evidence>) returns (exit: Exit)
      requires Running() && Valid(receipt.Value())
      modifies this, receipt
      ensures Running() && old(history) <= history && (exit.Continue? ==> Valid(receipt.Value()) && Bound(e))
      ensures exit.Continue? ==> IsDone(receipt.stages[REBOOT])
      ensures e.Some? && old(ComponentIsNext(receipt.Value(), e.value)) && outcomes(old(clock)).succeeds
              && outcomes(old(clock) + 1).succeeds ==>
                (OnRecord(COMPONENT) <==> Installed(Accept(old(receipt.Value()), e.value).value))
      ensures e.Some? && old(Undercuts(receipt.Value(), e.value)) && outcomes(old(clock)).succeeds ==>
                exit == Failed(2) && history == old(history) + [Accept(old(receipt.Value()), e.value).value]
      ensures Deserved(Outside(), old(Here()), Here(), e, COMPONENT, NATIVE)
      ensures old(Helped(e) && IsDone(receipt.stages[AUTOSTART])) ==> exit.Continue? && Finishing(e)
    {
      if e.Some? {
        ghost var start := Here();
        exit := WriteAccepted(e.value);
        if !exit.Continue? {
          DeservedWider(Outside(), start, Here(), e, COMPONENT, COMPONENT, COMPONENT, NATIVE);
          return;
        }
        ghost var accepted := Here();
        exit := ProveComponentAndReboot(e);
        DeservedTogether(Outside(), start, accepted, Here(), e, COMPONENT, COMPONENT, COMPONENT, NATIVE);
      } else {
        exit := ProveComponentAndReboot(e);
      }
    }

    // ---- Native transaction, DNS gate, client, result ----

    method MarkNative()
      requires Running()
      modifies receipt`native, receipt`stages, receipt`final
      ensures Running() && receipt.Value() == NativePassed(old(receipt.Value()))
    {
      ghost var before := receipt.Value();
      receipt.native := receipt.native.(status := NativePass);
      Stepped(before, ProgressMove(receipt.native));
      Mark(NATIVE, Pass);
      ghost var marked := receipt.Value();
      receipt.final := receipt.final.(native := true);
      Noted(marked);
    }

    /** The native stage is done. */
    method PassNative() returns (exit: Exit)
      requires Running()
      modifies this, receipt
      ensures Running() && old(history) <= history && (exit.Continue? ==> Valid(receipt.Value()))
      ensures receipt.Value() == NativePassed(old(receipt.Value()))
      ensures WrittenOnce(old(Here()), Here())
      ensures exit.Continue? <==> Valid(NativePassed(old(receipt.Value()))) && outcomes(old(clock)).succeeds
    {
      MarkNative();
      exit := Persist();
    }

    /** What the local adapter reports goes on record, dated by the current epoch. */
    method RecordApplied(applied: Outcome)
      requires Running() && Valid(receipt.Value()) && !IsDone(receipt.stages[NATIVE])
      modifies receipt`native
      ensures Running() && receipt.Value() == old(receipt.Value()).(native := receipt.native)
      ensures receipt.native == AppliedNative(old(receipt.Value()), applied)
    {
      assert !IsDone(receipt.stages[DNS]);
      ghost var before := receipt.Value();
      receipt.native := receipt.native.(
        writeRequired := Some(applied.writeRequired), saveRequired := Some(applied.writeRequired),
        preEpoch := Some(receipt.epoch), dnsRefreshRequired := applied.writeRequired);
      Stepped(before, PlanMove(receipt.native));
    }

    /** The local adapter plans, then applies. */
    method AskAdapter() returns (exit: Exit, applied: Outcome)
      requires Running()
      modifies this`clock, this`asked
      ensures Running() && old(asked) <= asked
      ensures exit.Continue? <==>
                outcomes(old(clock)).succeeds && outcomes(old(clock) + 1).succeeds && outcomes(old(clock) + 1).verified
      ensures exit.Continue? ==>
                && asked == old(asked) + [NativePlanTool] + [NativeApplyTool] && clock == old(clock) + 2
                && applied == outcomes(old(clock) + 1)
    {
      var plan := Next(NativePlanTool);
      if !plan.succeeds {
        return Failed(plan.code), plan;
      }
      applied := Next(NativeApplyTool);
      exit := if applied.succeeds && applied.verified then Continue else Failed(applied.code);
    }

    method PassApplied(applied: Outcome) returns (exit: Exit)
      requires Running() && Valid(receipt.Value()) && IsDone(receipt.stages[REBOOT]) && !IsDone(receipt.stages[NATIVE])
      modifies this, receipt
      ensures Running() && old(history) <= history && (exit.Continue? ==> Valid(receipt.Value()))
      ensures receipt.Value()
              == NativePassed(old(receipt.Value()).(native := AppliedNative(old(receipt.Value()), applied)))
      ensures WrittenOnce(old(Here()), Here())
      ensures exit.Continue? <==> old(IsDone(receipt.stages[REBOOT_PROOF])) && outcomes(old(clock)).succeeds
    {
      NativeIsValidIff(receipt.Value(), AppliedNative(receipt.Value(), applied));
      RecordApplied(applied);
      exit := PassNative();
    }

    method RecordAdapter(applied: Outcome, ghost start: Stand, ghost e: Option<Evidence>) returns (exit: Exit)
      requires Running() && Valid(receipt.Value()) && IsDone(receipt.stages[REBOOT]) && !IsDone(receipt.stages[NATIVE])
      requires args.localTransport && OnlyAsked(start) && asked == start.asked + [NativePlanTool] + [NativeApplyTool]
      requires outcomes(|start.asked|).succeeds && applied == outcomes(|start.asked| + 1)
      requires applied.succeeds && applied.verified
      modifies this, receipt
      ensures Running() && old(history) <= history && (exit.Continue? ==> Valid(receipt.Value()))
      ensures receipt.discovery == old(receipt.discovery)
      ensures exit.Continue? <==> old(IsDone(receipt.stages[REBOOT_PROOF])) && outcomes(old(clock)).succeeds
      ensures receipt.native.writeRequired == Some(applied.writeRequired)
      ensures receipt.native.dnsRefreshRequired == applied.writeRequired
      ensures receipt.native.preEpoch == Some(receipt.epoch) == receipt.stages[NATIVE].epoch
      ensures Deserved(Outside(), start, Here(), e, NATIVE, DNS)
      ensures receipt.stages == old(receipt.stages)[NATIVE := StageRecord(Pass, Some(receipt.epoch))]
    {
      exit := PassApplied(applied);
      AppliedIsEarned(Outside(), start, asked, applied, e);
      DeservedOnce(Outside(), start, Here(), e, NATIVE, DNS);
    }

    /** `_local_native_stage`: planned and applied by the local adapter. It goes through exactly if the adapter plans,
        applies and verifies, the reboot is proven, and the receipt can be written. */
    method NativeLocally(ghost e: Option<Evidence>) returns (exit: Exit)
      requires Running() && Valid(receipt.Value()) && IsDone(receipt.stages[REBOOT]) && !IsDone(receipt.stages[NATIVE])
      requires args.localTransport
      modifies this, receipt
      ensures Running() && old(history) <= history && (exit.Continue? ==> Valid(receipt.Value()))
      ensures receipt.discovery == old(receipt.discovery)
      ensures Deserved(Outside(), old(Here()), Here(), e, NATIVE, DNS)
      ensures exit.Continue? <==>
                && outcomes(old(clock)).succeeds && outcomes(old(clock) + 1).succeeds
                && outcomes(old(clock) + 1).verified && old(IsDone(receipt.stages[REBOOT_PROOF]))
                && outcomes(old(clock) + 2).succeeds
      ensures exit.Continue? ==>
                && receipt.native.writeRequired == Some(outcomes(old(clock) + 1).writeRequired)
                && receipt.native.dnsRefreshRequired == outcomes(old(clock) + 1).writeRequired
                && receipt.native.preEpoch == Some(receipt.epoch) == receipt.stages[NATIVE].epoch
      ensures exit.Continue? ==>
                receipt.stages == old(receipt.stages)[NATIVE := StageRecord(Pass, Some(receipt.epoch))]
    {
      ghost var start := Here();
      var applied;
      exit, applied := AskAdapter();
      if !exit.Continue? {
        DeservedIdle(Outside(), start, Here(), e, NATIVE, DNS);
        return;
      }
      exit := RecordAdapter(applied, start, e);
    }

    /** The planned transaction goes on record, dated by the current epoch. */
    method RecordPlan(packet: Outcome) returns (exit: Exit)
      requires Running() && Valid(receipt.Value()) && !IsDone(receipt.stages[NATIVE])
      modifies this, receipt
      ensures Running() && old(history) <= history
      ensures exit.Continue? ==> Valid(receipt.Value()) && !IsDone(receipt.stages[NATIVE])
      ensures receipt.Value() == old(receipt.Value()).(native := PlannedNative(old(receipt.Value()), args, packet))
      ensures WrittenOnce(old(Here()), Here())
    {
      assert !IsDone(receipt.stages[DNS]);
      ghost var before := receipt.Value();
      receipt.native := Native(
        Some(packet.fingerprint), Planned, Some(packet.writeRequired), Some(packet.writeRequired),
        Some(receipt.epoch), packet.writeRequired, args.preSnapshot, receipt.native.runningSnapshot);
      Stepped(before, PlanMove(receipt.native));
      exit := Persist();
    }

    method BuildPacket(ghost e: Option<Evidence>) returns (exit: Exit)
      requires Running() && Valid(receipt.Value()) && !IsDone(receipt.stages[NATIVE]) && args.preSnapshot.Some?
      modifies this, receipt
      ensures Running() && old(history) <= history
      ensures exit.Continue? ==> Valid(receipt.Value()) && !IsDone(receipt.stages[NATIVE])
      ensures receipt.Value() == old(receipt.Value()).(native := receipt.native)
      ensures exit.Continue? ==> receipt.native.status.Planned?
      ensures Deserved(Outside(), old(Here()), Here(), e, NATIVE, NATIVE)
    {
      ghost var start := Here();
      var packet := Next(PacketBuilder);
      if !packet.succeeds || !packet.verified {
        DeservedIdle(Outside(), start, Here(), e, NATIVE, NATIVE);
        return Failed(1);
      }
      exit := RecordPlan(packet);
      PlanAdvances(Outside(), start.receipt, start.asked, asked);
      TransactionAdvances(Outside(), start.receipt, receipt.native, asked, |start.asked|, e);
      DeservedOnce(Outside(), start, Here(), e, NATIVE, NATIVE);
    }

    /** Plan the external transaction against a fresh snapshot. */
    method PlanExternal(ghost e: Option<Evidence>) returns (exit: Exit)
      requires Running() && Valid(receipt.Value()) && !IsDone(receipt.stages[NATIVE])
      modifies this, receipt
      ensures Running() && old(history) <= history
      ensures exit.Continue? ==> Valid(receipt.Value()) && !IsDone(receipt.stages[NATIVE])
      ensures receipt.Value() == old(receipt.Value()).(native := receipt.native)
      ensures exit.Continue? ==> receipt.native.status.Planned? || receipt.native.status.RunningVerified?
      ensures Deserved(Outside(), old(Here()), Here(), e, NATIVE, NATIVE)
    {
      ghost var start := Here();
      if !receipt.native.status.NativePending? {
        DeservedIdle(Outside(), start, Here(), e, NATIVE, NATIVE);
        return Continue;
      }
      if args.preSnapshot.None? {
        exit := HandOff();
        DeservedIdle(Outside(), start, Here(), e, NATIVE, NATIVE);
        return;
      }
      exit := BuildPacket(e);
    }

    /** The verified running state goes on record. */
    method RecordRunning() returns (exit: Exit)
      requires Running() && Valid(receipt.Value()) && !IsDone(receipt.stages[NATIVE])
      modifies this, receipt
      ensures Running() && old(history) <= history
      ensures exit.Continue? ==> Valid(receipt.Value()) && !IsDone(receipt.stages[NATIVE])
      ensures receipt.Value() == old(receipt.Value()).(
                native := old(receipt.native).(status := RunningVerified, runningSnapshot := args.postSnapshot))
      ensures WrittenOnce(old(Here()), Here())
    {
      ghost var before := receipt.Value();
      receipt.native := receipt.native.(status := RunningVerified, runningSnapshot := args.postSnapshot);
      Stepped(before, ProgressMove(receipt.native));
      exit := Persist();
    }

    /** The running state, from another snapshot than the planned one. */
    method VerifySnapshot(ghost e: Option<Evidence>) returns (exit: Exit)
      requires Running() && Valid(receipt.Value()) && !IsDone(receipt.stages[NATIVE])
      requires receipt.native.status.Planned?
      modifies this, receipt
      ensures Running() && old(history) <= history && WrittenOnce(old(Here()), Here())
      ensures exit.Continue? ==> Valid(receipt.Value()) && !IsDone(receipt.stages[NATIVE])
      ensures if receipt.native == old(receipt.native) then receipt.Value() == old(receipt.Value()) && !exit.Continue?
              else
                && receipt.Value() == old(receipt.Value()).(
                     native := old(receipt.native).(status := RunningVerified, runningSnapshot := args.postSnapshot))
                && Verified(Outside(), asked, |old(asked)|, RunningSnapshot)
                && args.postSnapshot.Some? && args.postSnapshot != old(receipt.native.preSnapshot)
    {
      if args.postSnapshot.None? {
        exit := HandOff();
        return;
      }
      if args.postSnapshot == receipt.native.preSnapshot {
        return Failed(2);
      }
      ghost var start := asked;
      var verification := Next(RunningSnapshot);
      if !verification.succeeds || !verification.verified {
        return Failed(1);
      }
      exit := RecordRunning();
      AskedFirst(Outside(), start, RunningSnapshot, asked);
    }

    /** Verify the running state, once the packet on file has been found to be the one on record. */
    method VerifyRunning(ghost e: Option<Evidence>) returns (exit: Exit)
      requires Running() && Valid(receipt.Value()) && !IsDone(receipt.stages[NATIVE])
      requires receipt.native.status.Planned? || receipt.native.status.RunningVerified?
      modifies this, receipt
      ensures Running() && old(history) <= history
      ensures exit.Continue? ==> Valid(receipt.Value()) && !IsDone(receipt.stages[NATIVE])
      ensures receipt.Value() == old(receipt.Value()).(native := receipt.native)
      ensures exit.Continue? ==>
                && receipt.native.status.RunningVerified?
                && PacketMatched(Outside(), receipt.native, asked, |old(asked)|)
                && RunningProven(Outside(), old(receipt.native), receipt.native, asked, |old(asked)|)
      ensures Deserved(Outside(), old(Here()), Here(), e, NATIVE, NATIVE)
    {
      ghost var start := Here();
      var packet := Next(PacketFile);
      if !packet.succeeds || receipt.native.fingerprint != Some(packet.fingerprint) {
        DeservedIdle(Outside(), start, Here(), e, NATIVE, NATIVE);
        return Failed(2);
      }
      assert asked[|start.asked|] == PacketFile;
      if !receipt.native.status.Planned? {
        DeservedIdle(Outside(), start, Here(), e, NATIVE, NATIVE);
        return Continue;
      }
      exit := VerifyMatched(start, e);
    }

    method VerifyMatched(ghost start: Stand, ghost e: Option<Evidence>) returns (exit: Exit)
      requires Running() && Valid(receipt.Value()) && !IsDone(receipt.stages[NATIVE])
      requires receipt.native.status.Planned? && OnlyAsked(start) && asked == start.asked + [PacketFile]
      requires outcomes(|start.asked|).succeeds
      requires receipt.native.fingerprint == Some(outcomes(|start.asked|).fingerprint)
      modifies this, receipt
      ensures Running() && old(history) <= history
      ensures exit.Continue? ==> Valid(receipt.Value()) && !IsDone(receipt.stages[NATIVE])
      ensures receipt.Value() == start.receipt.(native := receipt.native)
      ensures exit.Continue? ==>
                && receipt.native.status.RunningVerified?
                && PacketMatched(Outside(), receipt.native, asked, |start.asked|)
                && RunningProven(Outside(), start.receipt.native, receipt.native, asked, |start.asked|)
      ensures Deserved(Outside(), start, Here(), e, NATIVE, NATIVE)
    {
      ghost var matched := asked;
      exit := VerifySnapshot(e);
      VerificationAdvances(Outside(), start.receipt.native, receipt.native, start.asked, matched, asked);
      TransactionAdvances(Outside(), start.receipt, receipt.native, asked, |start.asked|, e);
      DeservedOnce(Outside(), start, Here(), e, NATIVE, NATIVE);
    }

    method PrepareExternal(ghost e: Option<Evidence>) returns (exit: Exit)
      requires Running() && Valid(receipt.Value()) && !IsDone(receipt.stages[NATIVE])
      modifies this, receipt
      ensures Running() && old(history) <= history
      ensures exit.Continue? ==> Valid(receipt.Value()) && !IsDone(receipt.stages[NATIVE])
      ensures receipt.Value() == old(receipt.Value()).(native := receipt.native)
      ensures exit.Continue? ==>
                && receipt.native.status.RunningVerified?
                && PacketMatched(Outside(), receipt.native, asked, |old(asked)|)
                && RunningProven(Outside(), old(receipt.native), receipt.native, asked, |old(asked)|)
      ensures Deserved(Outside(), old(Here()), Here(), e, NATIVE, NATIVE)
    {
      ghost var start := Here();
      exit := PlanExternal(e);
      if exit.Continue? {
        ghost var planned := Here();
        exit := VerifyRunning(e);
        DeservedTogether(Outside(), start, planned, Here(), e, NATIVE, NATIVE, NATIVE, NATIVE);
        if exit.Continue? {
          PlannedStays(Outside(), receipt.native, asked, asked, |start.asked|, |planned.asked|);
          RunningProofAdds(
            Outside(), start.receipt.native, planned.receipt.native, receipt.native, planned.asked, asked,
            |start.asked|);
        }
      }
    }

    /** A transaction that must be saved is verified again from a third snapshot. */
    method VerifySaved() returns (exit: Exit)
      requires Running() && receipt.native.status.RunningVerified?
      modifies this
      ensures Running() && old(history) <= history && WrittenOnce(old(Here()), Here())
      ensures exit.Continue? ==> SaveProven(Outside(), receipt.native, asked, |old(asked)|)
    {
      if !receipt.native.status.RunningVerified? || receipt.native.saveRequired != Some(true) {
        return Continue;
      }
      if args.savedSnapshot.None? {
        exit := HandOff();
        return;
      }
      if args.savedSnapshot == receipt.native.preSnapshot || args.savedSnapshot == receipt.native.runningSnapshot {
        return Failed(2);
      }
      ghost var start := asked;
      var verification := Next(SavedSnapshot);
      assert asked[|start|] == SavedSnapshot;
      return if verification.succeeds && verification.verified then Continue else Failed(1);
    }

    /** `_external_native_stage`. */
    method NativeExternally(ghost e: Option<Evidence>) returns (exit: Exit)
      requires Running() && Valid(receipt.Value()) && IsDone(receipt.stages[REBOOT]) && !IsDone(receipt.stages[NATIVE])
      requires !args.localTransport
      modifies this, receipt
      ensures Running() && old(history) <= history && (exit.Continue? ==> Valid(receipt.Value()))
      ensures receipt.discovery == old(receipt.discovery)
      ensures Deserved(Outside(), old(Here()), Here(), e, NATIVE, DNS)
    {
      ghost var start := Here();
      exit := PrepareExternal(e);
      if !exit.Continue? {
        DeservedWider(Outside(), start, Here(), e, NATIVE, NATIVE, NATIVE, DNS);
        return;
      }
      ghost var prepared := Here();
      exit := FinishExternal(e, start);
    }

    /** The saved state where one is due, and the stage is passed. */
    method FinishExternal(ghost e: Option<Evidence>, ghost start: Stand) returns (exit: Exit)
      requires Running() && Valid(receipt.Value()) && !args.localTransport && receipt.native.status.RunningVerified?
      requires receipt.Value() == start.receipt.(native := receipt.native)
      requires Deserved(Outside(), start, Here(), e, NATIVE, NATIVE)
      requires PacketMatched(Outside(), receipt.native, asked, |start.asked|)
      requires RunningProven(Outside(), start.receipt.native, receipt.native, asked, |start.asked|)
      modifies this, receipt
      ensures Running() && old(history) <= history && (exit.Continue? ==> Valid(receipt.Value()))
      ensures receipt.discovery == old(receipt.discovery)
      ensures Deserved(Outside(), start, Here(), e, NATIVE, DNS)
    {
      ghost var prepared := Here();
      exit := VerifySaved();
      DeservedIdle(Outside(), prepared, Here(), e, NATIVE, NATIVE);
      DeservedTogether(Outside(), start, prepared, Here(), e, NATIVE, NATIVE, NATIVE, NATIVE);
      if exit.Continue? {
        ghost var verified := Here();
        exit := PassNative();
        PassIsEarned(Outside(), start, prepared, verified.asked, asked, e);
        DeservedAfter(Outside(), start, verified, Here(), e, NATIVE, NATIVE, DNS);
      } else {
        DeservedWider(Outside(), start, Here(), e, NATIVE, NATIVE, NATIVE, DNS);
      }
    }

    method NativeEither(ghost e: Option<Evidence>) returns (exit: Exit)
      requires Running() && Valid(receipt.Value()) && IsDone(receipt.stages[REBOOT]) && !IsDone(receipt.stages[NATIVE])
      modifies this, receipt
      ensures Running() && old(history) <= history && (exit.Continue? ==> Valid(receipt.Value()))
      ensures receipt.discovery == old(receipt.discovery)
      ensures Deserved(Outside(), old(Here()), Here(), e, NATIVE, DNS)
      ensures args.localTransport ==>
                (exit.Continue? <==>
                  && outcomes(old(clock)).succeeds && outcomes(old(clock) + 1).succeeds
                  && outcomes(old(clock) + 1).verified && old(IsDone(receipt.stages[REBOOT_PROOF]))
                  && outcomes(old(clock) + 2).succeeds)
      ensures args.localTransport && exit.Continue? ==>
                && receipt.stages == old(receipt.stages)[NATIVE := StageRecord(Pass, Some(receipt.epoch))]
                && receipt.native.dnsRefreshRequired == outcomes(old(clock) + 1).writeRequired
    {
      if args.localTransport {
        exit := NativeLocally(e);
      } else {
        exit := NativeExternally(e);
      }
    }

    /** Either adapter; a failure that is no hand-off is recorded. Nothing native starts before the reboot stage, and
        with it everything earlier, is done; the local adapter passes the stage exactly if it plans, applies and
        verifies on a proven reboot, and the receipt can be written. */
    method RunNative(ghost e: Option<Evidence>) returns (exit: Exit)
      requires Running() && Valid(receipt.Value()) && IsDone(receipt.stages[REBOOT])
      modifies this, receipt
      ensures Running() && old(history) <= history
      ensures exit.Continue? ==> Valid(receipt.Value()) && receipt.discovery == old(receipt.discovery)
      ensures Deserved(Outside(), old(Here()), Here(), e, NATIVE, DNS)
      ensures args.localTransport && !old(IsDone(receipt.stages[NATIVE])) ==>
                (exit.Continue? <==>
                  && outcomes(old(clock)).succeeds && outcomes(old(clock) + 1).succeeds
                  && outcomes(old(clock) + 1).verified && old(IsDone(receipt.stages[REBOOT_PROOF]))
                  && outcomes(old(clock) + 2).succeeds)
      ensures args.localTransport && !old(IsDone(receipt.stages[NATIVE])) && exit.Continue? ==>
                && receipt.stages == old(receipt.stages)[NATIVE := StageRecord(Pass, Some(receipt.epoch))]
                && receipt.native.dnsRefreshRequired == outcomes(old(clock) + 1).writeRequired
      ensures exit.Failed? ==> receipt.stages[NATIVE].status.Fail?
    {
      ghost var start := Here();
      if IsDone(receipt.stages[NATIVE]) {
        DeservedIdle(Outside(), start, Here(), e, NATIVE, DNS);
        return Continue;
      }
      exit := NativeEither(e);
      if exit.Failed? {
        ghost var failed := Here();
        exit := FailStage(NATIVE, exit.code, failed, e, DNS, DNS);
        DeservedTogether(Outside(), start, failed, Here(), e, NATIVE, DNS, DNS, DNS);
      }
    }

    /** The DNS stage is done, in an epoch after any native write that asked for fresh evidence. */
    method PassDns() returns (exit: Exit)
      requires Running() && (receipt.native.dnsRefreshRequired && receipt.native.preEpoch.Some? ==>
                              receipt.epoch > receipt.native.preEpoch.value)
      modifies this, receipt
      ensures Running() && old(history) <= history && (exit.Continue? ==> Valid(receipt.Value()))
      ensures receipt.Value() == DnsPassed(old(receipt.Value()))
      ensures exit.Continue? <==> Valid(DnsPassed(old(receipt.Value()))) && outcomes(old(clock)).succeeds
      ensures WrittenOnce(old(Here()), Here())
    {
      ghost var before := receipt.Value();
      receipt.Mark(DNS, Pass);
      Stepped(before, DnsMove);
      ghost var marked := receipt.Value();
      receipt.dnsGate := true;
      receipt.final := receipt.final.(dns := true);
      Noted(marked);
      exit := Persist();
    }

    /** The gate is passed on fresh, protected DNS. */
    method TakeDns(ghost e: Evidence) returns (exit: Exit)
      requires Running() && Valid(receipt.Value()) && !IsDone(receipt.stages[DNS]) && Bound(Some(e))
      requires DnsGrounds(receipt.native, Some(e))
      modifies this, receipt
      ensures Running() && old(history) <= history && (exit.Continue? ==> Valid(receipt.Value()))
      ensures IsDone(receipt.stages[DNS])
      ensures exit.Continue? <==> old(IsDone(receipt.stages[NATIVE])) && outcomes(old(clock)).succeeds
      ensures Deserved(Outside(), old(Here()), Here(), Some(e), DNS, CLIENT)
      ensures receipt.Value() == DnsPassed(old(receipt.Value()))
    {
      ghost var start := Here();
      EveryRunIsGood(history, receipt.Value());
      DnsIsValidIff(receipt.Value());
      exit := PassDns();
      DnsEarned(Outside(), start.receipt, receipt.Value(), asked, |start.asked|, e);
      DeservedOnce(Outside(), start, Here(), Some(e), DNS, CLIENT);
    }

    /** Evidence decides a gate that is still open. */
    method GateDns(e: Option<Evidence>) returns (exit: Exit)
      requires Running() && Valid(receipt.Value()) && Bound(e) && !IsDone(receipt.stages[DNS])
      modifies this, receipt
      ensures Running() && old(history) <= history && (exit.Continue? ==> Valid(receipt.Value()))
      ensures exit.Continue? <==>
                DnsGrounds(old(receipt.native), e) && old(IsDone(receipt.stages[NATIVE]))
                && outcomes(old(clock)).succeeds
      ensures exit.Continue? ==> receipt.Value() == DnsPassed(old(receipt.Value()))
      ensures Deserved(Outside(), old(Here()), Here(), e, DNS, CLIENT)
    {
      ghost var start := Here();
      EveryRunIsGood(history, receipt.Value());
      if e.Some? {
        GatesShow(e.value);
      }
      if e.None? || (receipt.native.dnsRefreshRequired && receipt.native.preEpoch.Some?
                     && e.value.epoch <= receipt.native.preEpoch.value) || !DnsGate(e.value) {
        exit := HandOff();
        DeservedIdle(Outside(), start, Here(), e, DNS, CLIENT);
        return;
      }
      exit := TakeDns(e.value);
    }

    /** The DNS gate: after a native write only evidence from a strictly later epoch counts. */
    method RunDnsGate(e: Option<Evidence>) returns (exit: Exit)
      requires Running() && Valid(receipt.Value()) && Bound(e)
      modifies this, receipt
      ensures Running() && old(history) <= history && (exit.Continue? ==> Valid(receipt.Value()))
      ensures exit.Continue? ==> IsDone(receipt.stages[DNS])
      ensures exit.Continue? <==>
                old(IsDone(receipt.stages[DNS]))
                || (DnsGrounds(old(receipt.native), e) && old(IsDone(receipt.stages[NATIVE]))
                    && outcomes(old(clock)).succeeds)
      ensures exit.Continue? ==>
                receipt.Value() == if old(IsDone(receipt.stages[DNS])) then old(receipt.Value())
                                   else DnsPassed(old(receipt.Value()))
      ensures Deserved(Outside(), old(Here()), Here(), e, DNS, CLIENT)
    {
      if IsDone(receipt.stages[DNS]) {
        ghost var start := Here();
        DeservedIdle(Outside(), start, Here(), e, DNS, CLIENT);
        return Continue;
      }
      exit := GateDns(e);
    }

    method MarkClient()
      requires Running()
      modifies receipt`stages, receipt`final
      ensures Running() && receipt.Value() == ClientPassed(old(receipt.Value()))
    {
      Mark(CLIENT, Pass);
      ghost var marked := receipt.Value();
      receipt.final := receipt.final.(client := true);
      Noted(marked);
    }

    method PassClient() returns (exit: Exit)
      requires Running()
      modifies this, receipt
      ensures Running() && old(history) <= history && (exit.Continue? ==> Valid(receipt.Value()))
      ensures receipt.Value() == ClientPassed(old(receipt.Value()))
      ensures exit.Continue? <==> Valid(ClientPassed(old(receipt.Value()))) && outcomes(old(clock)).succeeds
      ensures WrittenOnce(old(Here()), Here())
    {
      MarkClient();
      exit := Persist();
    }

    /** The client is accepted on evidence that it works. */
    method TakeClient(ghost e: Evidence) returns (exit: Exit)
      requires Running() && Valid(receipt.Value()) && !IsDone(receipt.stages[CLIENT]) && ShowsClient(e)
      modifies this, receipt
      ensures Running() && old(history) <= history && (exit.Continue? ==> Valid(receipt.Value()))
      ensures IsDone(receipt.stages[CLIENT])
      ensures exit.Continue? <==> old(IsDone(receipt.stages[DNS])) && outcomes(old(clock)).succeeds
      ensures Deserved(Outside(), old(Here()), Here(), Some(e), CLIENT, FINAL_RESULT)
      ensures receipt.Value() == ClientPassed(old(receipt.Value()))
    {
      ghost var start := Here();
      ClientIsValidIff(receipt.Value());
      exit := PassClient();
      DeservedStage(Outside(), start, Here(), Some(e), CLIENT);
    }

    method RunClient(e: Option<Evidence>) returns (exit: Exit)
      requires Running() && Valid(receipt.Value())
      modifies this, receipt
      ensures Running() && old(history) <= history && (exit.Continue? ==> Valid(receipt.Value()))
      ensures exit.Continue? ==> IsDone(receipt.stages[CLIENT])
      ensures exit.Continue? <==>
                old(IsDone(receipt.stages[CLIENT]))
                || (e.Some? && ShowsClient(e.value) && old(IsDone(receipt.stages[DNS]))
                    && outcomes(old(clock)).succeeds)
      ensures Deserved(Outside(), old(Here()), Here(), e, CLIENT, FINAL_RESULT)
      ensures exit.Continue? && !old(IsDone(receipt.stages[CLIENT])) ==>
                receipt.Value() == ClientPassed(old(receipt.Value()))
    {
      ghost var start := Here();
      if IsDone(receipt.stages[CLIENT]) {
        DeservedIdle(Outside(), start, Here(), e, CLIENT, FINAL_RESULT);
        return Continue;
      }
      if e.Some? {
        GatesShow(e.value);
      }
      if e.None? || !ClientGate(e.value) {
        exit := HandOff();
        DeservedIdle(Outside(), start, Here(), e, CLIENT, FINAL_RESULT);
        return;
      }
      exit := TakeClient(e.value);
    }

    method Conclude(ghost e: Option<Evidence>) returns (exit: Exit)
      requires Running() && Valid(receipt.Value())
      modifies this, receipt
      ensures Running() && old(history) <= history
      ensures exit.Continue? ==> Concluded() && saved == receipt.Value()
      ensures Deserved(Outside(), old(Here()), Here(), e, FINAL_RESULT, STAGES)
      ensures exit.Continue? <==>
                old(receipt.stages[NATIVE].status.Pass? && receipt.stages[DNS].status.Pass?
                    && receipt.stages[CLIENT].status.Pass?)
                && outcomes(old(clock)).succeeds
    {
      ghost var start := Here();
      FinalIsValidIff(receipt.Value());
      Mark(FINAL_RESULT, Pass);
      exit := Persist();
      DeservedStage(Outside(), start, Here(), e, FINAL_RESULT);
    }

    /** A final PASS is on record, with every stage done and every part reported as passed. */
    ghost predicate Concluded()
      reads this
    {
      && |saved.stages| == STAGES && saved.stages[FINAL_RESULT].status.Pass?
      && (forall k :: 0 <= k < STAGES ==> IsDone(saved.stages[k]))
      && saved.final == Final(true, true, true, true, true, true)
    }

    method RunClientAndConclude(e: Option<Evidence>) returns (exit: Exit)
      requires Running() && Valid(receipt.Value())
      modifies this, receipt
      ensures Running() && old(history) <= history
      ensures exit.Continue? ==> Concluded() && saved == receipt.Value()
      ensures Deserved(Outside(), old(Here()), Here(), e, CLIENT, STAGES)
      ensures (e.Some? && ShowsClient(e.value) && Helpful(Outside(), Manifest())
               && old(receipt.stages[NATIVE].status.Pass? && receipt.stages[DNS].status.Pass?
                      && !IsDone(receipt.stages[CLIENT]))) ==>
                exit.Continue?
    {
      ghost var start := Here();
      exit := RunClient(e);
      if exit.Continue? {
        ghost var accepted := Here();
        exit := Conclude(e);
        DeservedTogether(Outside(), start, accepted, Here(), e, CLIENT, FINAL_RESULT, FINAL_RESULT, STAGES);
      } else {
        DeservedWider(Outside(), start, Here(), e, CLIENT, FINAL_RESULT, CLIENT, STAGES);
      }
    }

    method RunNativeAndDns(e: Option<Evidence>) returns (exit: Exit)
      requires Running() && Valid(receipt.Value()) && IsDone(receipt.stages[REBOOT]) && Bound(e)
      modifies this, receipt
      ensures Running() && old(history) <= history && (exit.Continue? ==> Valid(receipt.Value()))
      ensures Deserved(Outside(), old(Here()), Here(), e, NATIVE, CLIENT)
      ensures old(Finishing(e)) ==>
                && exit.Continue? && receipt.stages[NATIVE].status.Pass? && receipt.stages[DNS].status.Pass?
                && !IsDone(receipt.stages[CLIENT])
    {
      ghost var start := Here();
      exit := RunNative(e);
      if exit.Continue? {
        ghost var passed := Here();
        exit := RunDnsGate(e);
        DeservedTogether(Outside(), start, passed, Here(), e, NATIVE, DNS, DNS, CLIENT);
      } else {
        DeservedWider(Outside(), start, Here(), e, NATIVE, DNS, NATIVE, CLIENT);
      }
    }

    /** `_native_dns_client_stages`. */
    method RunNativeDnsClient(e: Option<Evidence>) returns (exit: Exit)
      requires Running() && Valid(receipt.Value()) && IsDone(receipt.stages[REBOOT]) && Bound(e)
      modifies this, receipt
      ensures Running() && old(history) <= history
      ensures exit.Continue? ==> Concluded() && saved == receipt.Value()
      ensures Deserved(Outside(), old(Here()), Here(), e, NATIVE, STAGES)
      ensures old(Finishing(e)) ==> exit.Continue?
    {
      ghost var start := Here();
      exit := RunNativeAndDns(e);
      if exit.Continue? {
        ghost var passed := Here();
        exit := RunClientAndConclude(e);
        DeservedTogether(Outside(), start, passed, Here(), e, NATIVE, CLIENT, CLIENT, STAGES);
      } else {
        DeservedWider(Outside(), start, Here(), e, NATIVE, CLIENT, NATIVE, STAGES);
      }
    }

    // ---- One invocation ----

    method UpgradeReceipt(intent: Intent) returns (ok: bool, changed: bool)
      requires Running() && Valid(receipt.Value())
      modifies receipt
      ensures ok ==> Running() && Valid(receipt.Value()) && receipt.intent == intent
      ensures ok ==> receipt.Value() == old(receipt.Value()).(
                intent := receipt.intent, mayMove := receipt.mayMove, mayReboot := receipt.mayReboot)
      ensures old(receipt.intent) == intent ==> ok && !changed && receipt.Value() == old(receipt.Value())
    {
      ghost var before := receipt.Value();
      EveryRunIsGood(history, before);
      UpgradeOnlyGrows(before, intent);
      ok, changed := receipt.Upgrade(intent);
      if ok {
        Stepped(before, UpgradeMove(intent));
      }
    }

    method Resumed(intent: Intent, ghost e: Option<Evidence>) returns (exit: Exit)
      requires Running() && Valid(receipt.Value())
      modifies this, receipt
      ensures Filed() && old(history) <= history
      ensures exit.Continue? ==> Running() && Valid(receipt.Value()) && receipt.intent == intent
      ensures old(receipt.intent) == intent ==> exit.Continue? && Still()
      ensures exit.Continue? ==> Deserved(Outside(), old(Here()), Here(), e, 0, 0)
      ensures !exit.Continue? ==> history == old(history)
    {
      ghost var start := Here();
      RunningIsFiled();
      var ok, changed := UpgradeReceipt(intent);
      if !ok {
        return Failed(2);
      }
      exit := Continue;
      if changed {
        exit := Persist();
        RunningIsFiled();
      }
      NothingEarned(Outside(), start.receipt, receipt.Value(), asked, |start.asked|, e, 0, 0);
      DeservedOnce(Outside(), start, Here(), e, 0, 0);
    }

    method RunStages(e: Option<Evidence>) returns (exit: Exit)
      requires Running() && Valid(receipt.Value())
      modifies this, receipt
      ensures Running() && old(history) <= history && (exit.Continue? ==> Valid(receipt.Value()) && Bound(e))
      ensures exit.Continue? ==> IsDone(receipt.stages[REBOOT])
      ensures e.Some? && old(InPlace() && Undercuts(receipt.Value(), e.value)) ==>
                exit == Failed(2) && history == old(history) + [Accept(old(receipt.Value()), e.value).value]
      ensures Deserved(Outside(), old(Here()), Here(), e, NETWORK, NATIVE)
      ensures old(Helped(e)) ==> exit.Continue? && Finishing(e)
    {
      ghost var start := Here();
      exit := RunInstallation(e);
      if exit.Continue? {
        ghost var installed := Here();
        exit := RunComponent(e);
        DeservedTogether(Outside(), start, installed, Here(), e, NETWORK, COMPONENT, COMPONENT, NATIVE);
      } else {
        DeservedWider(Outside(), start, Here(), e, NETWORK, COMPONENT, NETWORK, NATIVE);
      }
    }

    method RunAll(e: Option<Evidence>) returns (exit: Exit)
      requires Running() && Valid(receipt.Value())
      modifies this, receipt
      ensures Running() && old(history) <= history
      ensures exit.Continue? ==> Concluded() && saved == receipt.Value()
      ensures e.Some? && old(InPlace() && Undercuts(receipt.Value(), e.value)) ==>
                exit == Failed(2) && history == old(history) + [Accept(old(receipt.Value()), e.value).value]
      ensures Deserved(Outside(), old(Here()), Here(), e, NETWORK, STAGES)
      ensures old(Helped(e)) ==> exit.Continue?
    {
      ghost var start := Here();
      exit := RunStages(e);
      if exit.Continue? {
        ghost var rebooted := Here();
        exit := RunNativeDnsClient(e);
        DeservedTogether(Outside(), start, rebooted, Here(), e, NETWORK, NATIVE, NATIVE, STAGES);
      } else {
        DeservedWider(Outside(), start, Here(), e, NETWORK, NATIVE, NETWORK, STAGES);
      }
    }

    /** The intent is checked against the receipt, then every part runs until one stops. */
    method RunParts(intent: Intent, e: Option<Evidence>) returns (exit: Exit)
      requires Running() && Valid(receipt.Value())
      modifies this, receipt
      ensures Filed() && old(history) <= history
      ensures exit.Continue? ==>
                Concluded()
                && Earned(Outside(), old(receipt.Value()), saved, asked, |old(asked)|, e, 0, STAGES)
      ensures e.Some? && old(receipt.intent == intent && InPlace() && Undercuts(receipt.Value(), e.value)) ==>
                exit == Failed(2) && history == old(history) + [Accept(old(receipt.Value()), e.value).value]
      ensures WrittenDeserved(Outside(), old(receipt.Value()), old(history), history, asked, |old(asked)|, e, 0, STAGES)
      ensures old(receipt.intent == intent && Helped(e)) ==> exit.Continue?
    {
      ghost var start := Here();
      exit := Resumed(intent, e);
      if exit.Continue? {
        ghost var resumed := Here();
        exit := RunAll(e);
        RunningIsFiled();
        DeservedTogether(Outside(), start, resumed, Here(), e, 0, 0, NETWORK, STAGES);
      }
    }

    /** A whole invocation. Whatever happens, everything ever persisted belongs to one run, no final PASS on record
        rests on stale DNS evidence, and a completed invocation has a final PASS on record. Every stage that a receipt
        written now has done and the one read in had not rests on its grounds: the tools that were asked, what they
        answered, and what the evidence shows. Evidence that proves the component but undoes a part of a complete local
        installation ends it with code 2: the receipt as the evidence has reset it is the only one written. And a local
        installation on its way, in a world that helps and with evidence that shows everything, is completed. */
    method Invoke(intent: Intent, e: Option<Evidence>) returns (exit: Exit)
      requires Running() && Valid(receipt.Value())
      modifies this, receipt
      ensures Filed() && old(history) <= history
      ensures forall i :: 0 <= i < |history| ==> FinalPassIsFresh(history[i])
      ensures exit.Continue? ==>
                Concluded()
                && Earned(Outside(), old(receipt.Value()), saved, asked, |old(asked)|, e, 0, STAGES)
      ensures WrittenDeserved(Outside(), old(receipt.Value()), old(history), history, asked, |old(asked)|, e, 0, STAGES)
      ensures e.Some? && old(receipt.intent == intent && InPlace() && Undercuts(receipt.Value(), e.value)) ==>
                exit == Failed(2) && history == old(history) + [Accept(old(receipt.Value()), e.value).value]
      ensures old(receipt.intent == intent && Helped(e)) ==> exit.Continue?
    {
      exit := RunParts(intent, e);
      EveryPassIsFresh(history, saved);
    }
  }

  lemma {:induction false} EveryPassIsFresh(history: seq<Receipt>, saved: Receipt)
    requires Reachable(history, saved)
    ensures forall i :: 0 <= i < |history| ==> FinalPassIsFresh(history[i])
  {
    forall i | 0 <= i < |history| ensures FinalPassIsFresh(history[i]) {
      FinalPassMeansFreshDns(history, saved, i);
    }
  }

  /** One call of the command line. */
  datatype Invocation = Invocation(
    args: Arguments, outcomes: nat -> Outcome, intent: Intent, evidence: Option<Evidence>)

  /** What is on file is the last of what has been written since the receipt was made for this intent. */
  ghost predicate Recorded(intent: Intent, saved: Receipt, history: seq<Receipt>) {
    && history != [] && history[0] == InitialReceipt(intent) && saved == history[|history| - 1]
    && Reachable(history, saved)
  }

  method FirstInvocation(first: Invocation) returns (saved: Receipt, ghost history: seq<Receipt>)
    ensures Recorded(first.intent, saved, history)
  {
    var session := new Session.Apply(first.args, first.outcomes, first.intent);
    var exit := session.Invoke(first.intent, first.evidence);
    saved, history := session.saved, session.history;
  }

  method NextInvocation(next: Invocation, file: Receipt, ghost intent: Intent, ghost written: seq<Receipt>)
    returns (saved: Receipt, ghost history: seq<Receipt>)
    requires Recorded(intent, file, written)
    ensures Recorded(intent, saved, history)
  {
    var session := new Session.Resume(next.args, next.outcomes, file, written);
    var exit := session.Invoke(next.intent, next.evidence);
    saved, history := session.saved, session.history;
  }

  /** A receipt's whole life: `apply`, then any number of `resume`s, each with its own intent, evidence and fortune.
      Nothing is asked of any of them, and everything written along the way is fresh and in order. */
  method Lifetime(first: Invocation, later: seq<Invocation>) returns (saved: Receipt, ghost history: seq<Receipt>)
    ensures history != [] && history[0] == InitialReceipt(first.intent) && saved == history[|history| - 1]
    ensures forall i :: 0 <= i < |history| ==> FinalPassIsFresh(history[i])
    ensures forall i, j :: 0 <= i < j < |history| ==> Follows(history[i], history[j])
  {
    saved, history := FirstInvocation(first);
    for n := 0 to |later|
      invariant Recorded(first.intent, saved, history)
    {
      saved, history := NextInvocation(later[n], saved, first.intent, history);
    }
    EveryRunIsGood(history, saved);
    forall i, j | 0 <= i < j < |history| ensures Follows(history[i], history[j]) {
      RunFollows(history, i, j);
    }
    forall i | 0 <= i < |history| ensures FinalPassIsFresh(history[i]) {
      FinalPassMeansFreshDns(history, saved, i);
    }
  }

  /** A first invocation for a local router, in a world that helps and with evidence that shows everything, ends with
      every stage done and a final PASS on record. */
  method CompleteFirstRun(first: Invocation) returns (saved: Receipt)
    requires first.intent.identity.mode.LocalRouter?
    requires first.evidence.Some? && first.evidence.value.epoch == 0 && ShowsAll(first.evidence.value)
    requires Helpful(World(first.args, first.outcomes), first.outcomes(0).manifest.GetOr(""))
    ensures |saved.stages| == STAGES && saved.stages[FINAL_RESULT].status.Pass?
    ensures forall k :: 0 <= k < STAGES ==> IsDone(saved.stages[k])
    ensures saved.identity == first.intent.identity
  {
    var session := new Session.Apply(first.args, first.outcomes, first.intent);
    FreshIsUnderway(first.intent, first.evidence.value, session.Manifest());
    var exit := session.Invoke(first.intent, first.evidence);
    saved := session.saved;
  }

  lemma {:induction false} FreshIsUnderway(intent: Intent, e: Evidence, manifest: string)
    requires intent.identity.mode.LocalRouter? && e.epoch == 0
    ensures Underway(InitialReceipt(intent), e, manifest)
  {
  }

  /** An instance: the file holds a complete local installation, the binary is replaced, the native component installed,
      and `resume` is given evidence of both. Every tool and every write would succeed; the invocation still ends with
      code 2, and the last receipt written lacks the component stage. */
  method RefusedResume() returns (exit: Exit, saved: Receipt, ghost history: seq<Receipt>)
    ensures exit == Failed(2) && Reachable(history, saved)
    ensures saved == Accept(ReadyForComponent(), REPLACED_XRAY).value
    ensures history == [InitialReceipt(LOCAL), ReadyForComponent(), saved]
    ensures |saved.stages| == STAGES && !IsDone(saved.stages[COMPONENT])
  {
    var args := Arguments(false, false, true, None, None, None);
    ReadyIsReachable();
    ReadyIsComplete();
    ResetBeforeComponentIsRefused();
    var session := new Session.Resume(
      args, _ => Outcome(true, 0, Some("manifest"), true, true, false, ""), ReadyForComponent(),
      [InitialReceipt(LOCAL), ReadyForComponent()]);
    assert session.InPlace() && session.receipt.intent == LOCAL;
    exit := session.Invoke(LOCAL, Some(REPLACED_XRAY));
    saved, history := session.saved, session.history;
  }
}
