/** The live-install receipt and what evidence does to it (scripts/routerkit_live_install.py:219-657, 807-858). */
module InstallReceipt {
  import opened Wrappers

  // ---- The receipt ----

  datatype Status = Pending | Pass | Fail | Skipped

  datatype StageRecord = StageRecord(status: Status, epoch: Option<nat>)

  const UNTOUCHED := StageRecord(Pending, None)

  // The stages, by their place in the order.
  const NETWORK := 0
  const STORAGE := 1
  const BOOTSTRAP := 2
  const SOURCE := 3
  const GENERATE := 4
  const STRICT_PLAN := 5
  const BACKUP := 6
  const INSTALL := 7
  const HEALTHCHECK := 8
  const AUTOSTART := 9
  const COMPONENT := 10
  const REBOOT := 11
  const REBOOT_PROOF := 12
  const NATIVE := 13
  const DNS := 14
  const CLIENT := 15
  const FINAL_RESULT := 16
  const STAGES := 17

  datatype RuntimeMode = LocalRouter | ExternalEvidence

  datatype Disposition = PendingRuntime | Executed | Adopted | ExternalExecuted

  /** What a receipt is about; it never changes. */
  datatype Identity = Identity(
    transport: string, mode: RuntimeMode, adopt: bool, artifact: string, device: string, slot: int)

  datatype Intent = Intent(identity: Identity, mayMove: bool, mayReboot: bool)

  datatype NativeStatus = NativePending | Planned | RunningVerified | NativePass

  datatype Native = Native(
    fingerprint: Option<string>, status: NativeStatus, writeRequired: Option<bool>, saveRequired: Option<bool>,
    preEpoch: Option<nat>, dnsRefreshRequired: bool, preSnapshot: Option<string>, runningSnapshot: Option<string>)

  const NO_NATIVE := Native(None, NativePending, None, None, None, false, None, None)

  /** Which parts are reported as passed. */
  datatype Final = Final(installation: bool, xray: bool, autostart: bool, native: bool, dns: bool, client: bool)

  datatype Check = Management | Wan | Lan | Wifi | UsbOpt | Entware | XrayCheck | Listeners | ProxyComponent

  datatype Change = NoChange | ComponentChange | RebootChange | NativeChange | OptChange | XrayChange | Contradictory

  datatype Availability = AnyBinding | Unbound | Interfaces | UnknownBinding

  datatype Runtime = Runtime(
    onRouter: bool, optReady: bool, entwareReady: bool, release: Option<string>, running: bool, listeners: bool,
    autostart: bool, rebootRecovery: bool, manifestVerified: bool, manifest: Option<string>)

  datatype Evidence = Evidence(
    epoch: nat, change: Change, passed: set<Check>, runtime: Runtime, componentPresent: bool, componentReboot: bool,
    rebootCompleted: bool, dnsProtected: bool, dnsVerified: bool, availability: Availability,
    boundInterfaces: set<string>, policyInterfaces: set<string>, clientAssigned: bool, domainDns: bool,
    domainHttps: bool, probed: bool)

  /** An evidence fingerprint is the evidence it digests. */
  datatype Discovery = Discovery(epoch: nat, evidence: Evidence)

  datatype Receipt = Receipt(
    intent: Intent, identity: Identity, disposition: Disposition, runtimeEvidence: Option<Evidence>, mayMove: bool,
    mayReboot: bool, endpoint: Option<string>, epoch: nat, discovery: Option<Discovery>, rebootRequired: Option<bool>,
    completedReboot: Option<nat>, native: Native, dnsGate: bool, final: Final, stages: seq<StageRecord>)

  datatype InstallError = Refused

  predicate IsDone(record: StageRecord) {
    record.status.Pass? || record.status.Skipped?
  }

  predicate Done(r: Receipt, stage: nat)
    requires stage < |r.stages|
  {
    IsDone(r.stages[stage])
  }

  predicate Installed(r: Receipt)
    requires |r.stages| == STAGES
  {
    forall k :: 0 <= k <= AUTOSTART ==> IsDone(r.stages[k])
  }

  function InitialReceipt(intent: Intent): Receipt {
    Receipt(intent, intent.identity, PendingRuntime, None, intent.mayMove, intent.mayReboot, None, 0, None, None, None,
            NO_NATIVE, false, Final(false, false, false, false, false, false), seq(STAGES, _ => UNTOUCHED))
  }

  // ---- Validity ----

  /** Completed stages form a prefix of the order. */
  predicate Ordered(stages: seq<StageRecord>) {
    forall i, j :: 0 <= i < j < |stages| && IsDone(stages[j]) ==> IsDone(stages[i])
  }

  predicate AllPassed(r: Receipt)
    requires |r.stages| == STAGES
  {
    forall k :: 0 <= k <= AUTOSTART ==> r.stages[k].status.Pass?
  }

  /** The stage pattern of an adopted runtime: everything that would have built it is skipped. */
  function AdoptedStatus(stage: nat): Status {
    if stage <= STORAGE || stage >= HEALTHCHECK then Pass else Skipped
  }

  predicate AdoptedPattern(r: Receipt)
    requires |r.stages| == STAGES
  {
    forall k :: 0 <= k <= AUTOSTART ==> r.stages[k].status == AdoptedStatus(k)
  }

  predicate DispositionValid(r: Receipt)
    requires |r.stages| == STAGES
  {
    match r.disposition
    case PendingRuntime => !Installed(r)
    case Executed => r.identity.mode.LocalRouter? && r.runtimeEvidence.None? && AllPassed(r)
    case Adopted =>
      r.identity.mode.ExternalEvidence? && r.identity.adopt && r.runtimeEvidence.Some? && AdoptedPattern(r)
    case ExternalExecuted =>
      r.identity.mode.ExternalEvidence? && !r.identity.adopt && r.runtimeEvidence.Some? && AllPassed(r)
  }

  predicate RebootValid(r: Receipt)
    requires |r.stages| == STAGES
  {
    && (r.completedReboot.Some? ==> r.completedReboot.value >= 1)
    && (r.stages[COMPONENT].status.Pass? ==> r.rebootRequired.Some?)
    && (r.stages[REBOOT].status.Skipped? ==>
          r.stages[REBOOT_PROOF].status.Pending? || r.stages[REBOOT_PROOF].status.Skipped?)
    && (r.stages[REBOOT].status.Pass? ==> r.completedReboot.Some?)
  }

  /** The summary the stages call for. */
  function ExpectedFinal(r: Receipt): Final
    requires |r.stages| == STAGES
  {
    Final(Installed(r), Done(r, HEALTHCHECK), Done(r, AUTOSTART), r.stages[NATIVE].status.Pass?,
          r.stages[DNS].status.Pass?, r.stages[CLIENT].status.Pass?)
  }

  predicate AllReported(f: Final) {
    f.installation && f.xray && f.autostart && f.native && f.dns && f.client
  }

  /** `validate_receipt`, for a receipt of the right shape. */
  predicate Valid(r: Receipt) {
    && |r.stages| == STAGES
    && Ordered(r.stages)
    && (Done(r, STRICT_PLAN) ==> r.endpoint.Some?)
    && DispositionValid(r)
    && RebootValid(r)
    && (r.stages[NATIVE].status.Pass? <==> r.native.status.NativePass?)
    && (r.stages[DNS].status.Pass? <==> r.dnsGate)
    && r.final == ExpectedFinal(r)
    && (r.stages[FINAL_RESULT].status.Pass? ==> AllReported(r.final))
    && r.intent == Intent(r.identity, r.mayMove, r.mayReboot)
  }

  lemma {:induction false} InitialReceiptIsValid(intent: Intent)
    ensures Valid(InitialReceipt(intent))
  {
    var r := InitialReceipt(intent);
    assert !IsDone(r.stages[NETWORK]);
  }

  // ---- Marking and resetting ----

  function MarkStage(r: Receipt, stage: nat, status: Status): Receipt
    requires stage < |r.stages|
  {
    r.(stages := r.stages[stage := StageRecord(status, Some(r.epoch))])
  }

  /** `_sync_final_verification`. */
  function SyncFinal(r: Receipt): Receipt
    requires |r.stages| == STAGES
  {
    r.(final := Final(Installed(r), Done(r, HEALTHCHECK), Done(r, AUTOSTART), Done(r, NATIVE), Done(r, DNS),
                      Done(r, CLIENT)))
  }

  function Cleared(stages: seq<StageRecord>, start: nat): seq<StageRecord>
    requires |stages| == STAGES && start < STAGES
  {
    seq(STAGES, k requires 0 <= k < STAGES => if k < start then stages[k] else UNTOUCHED)
  }

  /** Later stages start over, and everything they had established is forgotten. */
  function ForgetFrom(r: Receipt, start: nat): Receipt
    requires |r.stages| == STAGES && start < STAGES
  {
    r.(
      stages := Cleared(r.stages, start),
      endpoint := if start <= GENERATE then None else r.endpoint,
      disposition := if start <= AUTOSTART then PendingRuntime else r.disposition,
      runtimeEvidence := if start <= AUTOSTART then None else r.runtimeEvidence,
      rebootRequired := if start <= COMPONENT then None else r.rebootRequired,
      completedReboot := if start <= REBOOT then None else r.completedReboot,
      native := if start <= NATIVE then NO_NATIVE else r.native,
      dnsGate := if start <= DNS then false else r.dnsGate)
  }

  /** `_reset_from_stage`. */
  function ResetFrom(r: Receipt, start: nat): Receipt
    requires |r.stages| == STAGES && start < STAGES
  {
    SyncFinal(ForgetFrom(r, start))
  }

  // ---- Accepting evidence ----

  /** The epoch the native transaction expects to be observed again in, if a DNS refresh is due. */
  predicate ExpectedRefresh(r: Receipt, e: Evidence) {
    r.native.status.NativePass? && r.native.dnsRefreshRequired && r.native.preEpoch.Some?
    && e.epoch == r.native.preEpoch.value + 1
  }

  /** The resets a state change calls for. */
  function Reset(r: Receipt, e: Evidence): Receipt
    requires |r.stages| == STAGES
  {
    match e.change
    case ComponentChange => if Done(r, COMPONENT) then ResetFrom(r, COMPONENT) else r
    case RebootChange => if Done(r, REBOOT) then ResetFrom(r, REBOOT).(rebootRequired := Some(true)) else r
    case OptChange => ResetFrom(r, STORAGE)
    case XrayChange => ResetFrom(r, BOOTSTRAP)
    case Contradictory => ResetFrom(r, NETWORK)
    case NativeChange => if !ExpectedRefresh(r, e) && Done(r, NATIVE) then ResetFrom(r, NATIVE) else r
    case NoChange => r
  }

  /** `accept_discovery_evidence`. */
  function Accept(r: Receipt, e: Evidence): Result<Receipt, InstallError>
    requires |r.stages| == STAGES
  {
    if r.discovery.Some? && r.discovery.value.epoch == e.epoch then
      if r.discovery.value.evidence == e then Ok(r) else Err(Refused)
    else if e.epoch == r.epoch then
      if e.change.NoChange? then Ok(r.(discovery := Some(Discovery(e.epoch, e)))) else Err(Refused)
    else if e.epoch == r.epoch + 1 then
      if e.change.NoChange? then Err(Refused)
      else Ok(Reset(r.(epoch := e.epoch), e).(discovery := Some(Discovery(e.epoch, e))))
    else Err(Refused)
  }

  lemma {:induction false} ResetStages(r: Receipt, start: nat)
    requires |r.stages| == STAGES && start < STAGES && Ordered(r.stages)
    ensures |ResetFrom(r, start).stages| == STAGES && Ordered(ResetFrom(r, start).stages)
    ensures forall k :: 0 <= k < start ==> ResetFrom(r, start).stages[k] == r.stages[k]
    ensures forall k :: start <= k < STAGES ==> ResetFrom(r, start).stages[k] == UNTOUCHED
  {
  }

  /** Every reset the evidence can ask for keeps a valid receipt valid. */
  lemma {:induction false} ResetKeepsValid(r: Receipt, start: nat)
    requires Valid(r) && start <= NATIVE && (start <= STORAGE || start == BOOTSTRAP || start >= COMPONENT)
    ensures Valid(ResetFrom(r, start))
  {
    ResetStages(r, start);
    var s := ResetFrom(r, start);
    if start <= AUTOSTART {
      assert !IsDone(s.stages[start]);
    } else {
      assert Installed(s) == Installed(r) && AllPassed(s) == AllPassed(r) && AdoptedPattern(s) == AdoptedPattern(r);
    }
  }

  lemma {:induction false} EpochDoesNotMatter(r: Receipt, epoch: nat, discovery: Option<Discovery>)
    requires Valid(r)
    ensures Valid(r.(epoch := epoch)) && Valid(r.(discovery := discovery))
  {
  }

  lemma {:induction false} RebootStaysOpen(r: Receipt)
    requires Valid(r) && r.stages[REBOOT] == UNTOUCHED
    ensures Valid(r.(rebootRequired := Some(true)))
  {
  }

  lemma {:induction false} StateChangeKeepsValid(r: Receipt, e: Evidence)
    requires Valid(r)
    ensures Valid(Reset(r, e))
  {
    match e.change {
      case ComponentChange => ResetKeepsValid(r, COMPONENT);
      case RebootChange =>
        ResetKeepsValid(r, REBOOT);
        ResetStages(r, REBOOT);
        RebootStaysOpen(ResetFrom(r, REBOOT));
      case OptChange => ResetKeepsValid(r, STORAGE);
      case XrayChange => ResetKeepsValid(r, BOOTSTRAP);
      case Contradictory => ResetKeepsValid(r, NETWORK);
      case NativeChange => ResetKeepsValid(r, NATIVE);
      case NoChange =>
    }
  }

  /** Accepted evidence keeps a valid receipt valid, whatever it resets. */
  lemma {:induction false} AcceptKeepsValid(r: Receipt, e: Evidence)
    requires Valid(r) && Accept(r, e).Ok?
    ensures Valid(Accept(r, e).value)
  {
    var s := r.(epoch := e.epoch);
    EpochDoesNotMatter(r, e.epoch, Some(Discovery(e.epoch, e)));
    StateChangeKeepsValid(s, e);
    EpochDoesNotMatter(Reset(s, e), s.epoch, Some(Discovery(e.epoch, e)));
  }

  /** Nothing of the native stage and what follows it is left. */
  predicate NativeUndone(r: Receipt) {
    |r.stages| == STAGES && forall k :: NATIVE <= k < STAGES ==> r.stages[k] == UNTOUCHED
  }

  lemma {:induction false} EarlyResetUndoesNative(r: Receipt, start: nat)
    requires Valid(r) && start <= NATIVE
    ensures NativeUndone(ResetFrom(r, start))
  {
    ResetStages(r, start);
  }

  lemma {:induction false} PassedNativeIsReset(r: Receipt, e: Evidence)
    requires Valid(r) && r.stages[NATIVE].status.Pass? && !e.change.NoChange?
    ensures if e.change.NativeChange? && ExpectedRefresh(r, e) then Reset(r, e) == r else NativeUndone(Reset(r, e))
  {
    assert Done(r, NATIVE) && Done(r, COMPONENT) && Done(r, REBOOT);
    match e.change {
      case ComponentChange => EarlyResetUndoesNative(r, COMPONENT);
      case RebootChange => EarlyResetUndoesNative(r, REBOOT);
      case OptChange => EarlyResetUndoesNative(r, STORAGE);
      case XrayChange => EarlyResetUndoesNative(r, BOOTSTRAP);
      case Contradictory => EarlyResetUndoesNative(r, NETWORK);
      case NativeChange => EarlyResetUndoesNative(r, NATIVE);
      case NoChange =>
    }
  }

  /** A passed native stage outlives a new epoch exactly through the refresh it asked for, in the epoch right after
      its own; every other accepted advance undoes it and all stages after it. */
  lemma {:induction false} NativeOutlivesEpochIff(r: Receipt, e: Evidence)
    requires Valid(r) && r.stages[NATIVE].status.Pass? && Accept(r, e).Ok? && e.epoch != r.epoch
    requires r.discovery.Some? ==> r.discovery.value.epoch == r.epoch
    ensures var s := Accept(r, e).value;
            && s.epoch == r.epoch + 1 && |s.stages| == STAGES
            && (s.stages[NATIVE].status.Pass? <==>
                  e.change.NativeChange? && r.native.dnsRefreshRequired && r.native.preEpoch == Some(r.epoch))
            && (s.stages[NATIVE].status.Pass? ==> s.stages == r.stages && s.native == r.native)
            && (!s.stages[NATIVE].status.Pass? ==> NativeUndone(s))
  {
    EpochDoesNotMatter(r, e.epoch, None);
    PassedNativeIsReset(r.(epoch := e.epoch), e);
  }

  // ---- What evidence is accepted, and what it leaves ----

  /** The stage outlives the change. A component, reboot or native change undoes nothing before the stage it is about,
      and nothing at all if that stage is not done; new storage leaves the network preflight, a new binary also the
      storage readiness, and contradictory evidence leaves nothing. */
  predicate Survives(r: Receipt, e: Evidence, stage: nat)
    requires |r.stages| == STAGES
  {
    match e.change
    case NoChange => true
    case Contradictory => false
    case OptChange => stage == NETWORK
    case XrayChange => stage == NETWORK || stage == STORAGE
    case ComponentChange => stage <= AUTOSTART || !IsDone(r.stages[COMPONENT])
    case RebootChange => stage <= COMPONENT || !IsDone(r.stages[REBOOT])
    case NativeChange =>
      || stage <= REBOOT_PROOF || !IsDone(r.stages[NATIVE])
      || (r.native.status.NativePass? && r.native.dnsRefreshRequired && r.native.preEpoch.Some?
          && e.epoch == r.native.preEpoch.value + 1)
  }

  lemma {:induction false} ResetFromLeaves(r: Receipt, start: nat, stage: nat)
    requires |r.stages| == STAGES && start < STAGES && stage < STAGES
    ensures |ResetFrom(r, start).stages| == STAGES && ResetFrom(r, start).epoch == r.epoch
    ensures ResetFrom(r, start).stages[stage] == if stage < start then r.stages[stage] else UNTOUCHED
  {
  }

  lemma {:induction false} ResetLeaves(r: Receipt, e: Evidence, stage: nat)
    requires |r.stages| == STAGES && stage < STAGES
    ensures |Reset(r, e).stages| == STAGES && Reset(r, e).epoch == r.epoch
    ensures Reset(r, e).stages[stage] == if Survives(r, e, stage) then r.stages[stage] else UNTOUCHED
  {
    match e.change {
      case ComponentChange => ResetFromLeaves(r, COMPONENT, stage);
      case RebootChange => ResetFromLeaves(r, REBOOT, stage);
      case OptChange => ResetFromLeaves(r, STORAGE, stage);
      case XrayChange => ResetFromLeaves(r, BOOTSTRAP, stage);
      case Contradictory => ResetFromLeaves(r, NETWORK, stage);
      case NativeChange => ResetFromLeaves(r, NATIVE, stage);
      case NoChange =>
    }
  }

  /** Evidence is accepted if it is what the epoch is bound to already, if it is the first of the current epoch and
      reports no change, or if it opens the next epoch with a change. */
  predicate Acceptable(r: Receipt, e: Evidence) {
    if r.discovery.Some? && r.discovery.value.epoch == e.epoch then r.discovery.value.evidence == e
    else (e.epoch == r.epoch && e.change == NoChange) || (e.epoch == r.epoch + 1 && e.change != NoChange)
  }

  lemma {:induction false} AcceptedIff(r: Receipt, e: Evidence)
    requires |r.stages| == STAGES
    ensures Accept(r, e).Ok? <==> Acceptable(r, e)
    ensures r.discovery.Some? && r.discovery.value.epoch == e.epoch && Acceptable(r, e) ==> Accept(r, e) == Ok(r)
  {
  }

  /** Acceptance happens exactly for such evidence; each stage is then as it was if it survives and untouched
      otherwise, and evidence seen before changes nothing. */
  lemma {:induction false} AcceptedStages(r: Receipt, e: Evidence, stage: nat)
    requires |r.stages| == STAGES && stage < STAGES
    ensures Accept(r, e).Ok? <==> Acceptable(r, e)
    ensures Acceptable(r, e) ==>
              if r.discovery.Some? && r.discovery.value.epoch == e.epoch then Accept(r, e) == Ok(r)
              else
                var s := Accept(r, e).value;
                && |s.stages| == STAGES && s.epoch == e.epoch && s.discovery == Some(Discovery(e.epoch, e))
                && s.stages[stage] == if Survives(r, e, stage) then r.stages[stage] else UNTOUCHED
  {
    AcceptedIff(r, e);
    ResetLeaves(r.(epoch := e.epoch), e, stage);
  }

  /** Whatever a reset undoes it forgets: a manifest without its generation, a disposition without an installation, a
      reboot decision without its component, a transaction without its stage, and a DNS gate without the DNS stage. */
  lemma {:induction false} AcceptedFields(r: Receipt, e: Evidence)
    requires |r.stages| == STAGES && Accept(r, e).Ok? && e.epoch == r.epoch + 1
    requires r.discovery.Some? ==> r.discovery.value.epoch == r.epoch
    ensures var s := Accept(r, e).value;
            && s.endpoint == (if Survives(r, e, GENERATE) then r.endpoint else None)
            && s.disposition == (if Survives(r, e, AUTOSTART) then r.disposition else PendingRuntime)
            && s.runtimeEvidence == (if Survives(r, e, AUTOSTART) then r.runtimeEvidence else None)
            && s.rebootRequired == (if !Survives(r, e, COMPONENT) then None
                                    else if !Survives(r, e, REBOOT) && e.change.RebootChange? then Some(true)
                                    else r.rebootRequired)
            && s.completedReboot == (if Survives(r, e, REBOOT) then r.completedReboot else None)
            && s.native == (if Survives(r, e, NATIVE) then r.native else NO_NATIVE)
            && s.dnsGate == (Survives(r, e, DNS) && r.dnsGate)
  {
  }
}
