/** What holds along every run of receipts (scripts/routerkit_live_install.py:545-598, 807-858). */
module InstallRuns {
  import opened Wrappers
  import opened InstallReceipt

  // ---- What every receipt of a run satisfies ----

  /** No stage was recorded in an epoch still to come. */
  predicate StagesInPast(r: Receipt) {
    forall k :: 0 <= k < |r.stages| && r.stages[k].epoch.Some? ==> r.stages[k].epoch.value <= r.epoch
  }

  /** DNS evidence that a native write called for is from a strictly later epoch than that write. */
  predicate DnsAfterNative(r: Receipt)
    requires |r.stages| == STAGES
  {
    && (r.native.dnsRefreshRequired ==> r.native.preEpoch.Some?)
    && (r.native.dnsRefreshRequired && r.stages[DNS].status.Pass? ==>
          r.stages[DNS].epoch.Some? && r.stages[DNS].epoch.value > r.native.preEpoch.value)
  }

  /** All recorded epochs fit the current one. */
  predicate Timely(r: Receipt) {
    && |r.stages| == STAGES && StagesInPast(r)
    && (r.native.preEpoch.Some? ==> r.native.preEpoch.value <= r.epoch)
    && DnsAfterNative(r)
  }

  predicate Sound(r: Receipt) {
    && Timely(r)
    && (r.discovery.Some? ==> r.discovery.value.epoch == r.epoch && r.discovery.value.evidence.epoch == r.epoch)
  }

  /** What a reset leaves alone. */
  predicate SameFrame(r: Receipt, s: Receipt) {
    && s.epoch == r.epoch && s.discovery == r.discovery && s.identity == r.identity && s.intent == r.intent
    && s.mayMove == r.mayMove && s.mayReboot == r.mayReboot
    && (s.disposition == r.disposition || s.disposition.PendingRuntime?)
  }

  /** How a later receipt relates to an earlier one of the same run. */
  predicate Follows(earlier: Receipt, later: Receipt) {
    && earlier.identity == later.identity
    && (earlier.mayMove ==> later.mayMove) && (earlier.mayReboot ==> later.mayReboot)
    && earlier.epoch <= later.epoch
    && (earlier.epoch == later.epoch && earlier.discovery.Some? ==> later.discovery == earlier.discovery)
  }

  lemma {:induction false} FollowsIsTransitive(a: Receipt, b: Receipt, c: Receipt)
    requires Follows(a, b) && Follows(b, c)
    ensures Follows(a, c)
  {
  }

  lemma {:induction false} ResetKeepsTimely(r: Receipt, start: nat)
    requires Timely(r) && start <= NATIVE
    ensures Timely(ResetFrom(r, start)) && SameFrame(r, ResetFrom(r, start))
  {
    var s := ResetFrom(r, start);
    assert s.stages[DNS] == UNTOUCHED;
    assert s.native == NO_NATIVE;
    forall k | 0 <= k < |s.stages| && s.stages[k].epoch.Some? ensures s.stages[k].epoch.value <= s.epoch {
      assert s.stages[k] == r.stages[k];
    }
  }

  /** A state change resets receipts without touching identity, authority, epoch or discovery. */
  lemma {:induction false} StateChangeKeepsTimely(r: Receipt, e: Evidence)
    requires Timely(r)
    ensures Timely(Reset(r, e)) && SameFrame(r, Reset(r, e))
  {
    match e.change {
      case ComponentChange => ResetKeepsTimely(r, COMPONENT);
      case RebootChange => ResetKeepsTimely(r, REBOOT);
      case OptChange => ResetKeepsTimely(r, STORAGE);
      case XrayChange => ResetKeepsTimely(r, BOOTSTRAP);
      case Contradictory => ResetKeepsTimely(r, NETWORK);
      case NativeChange => ResetKeepsTimely(r, NATIVE);
      case NoChange =>
    }
  }

  /** Accepting evidence: the run's invariants hold on, the epoch grows by at most one, and it is the evidence's. */
  lemma {:induction false} AcceptAdvances(r: Receipt, e: Evidence)
    requires Sound(r) && Accept(r, e).Ok?
    ensures var s := Accept(r, e).value;
            && Sound(s) && Follows(r, s) && s.epoch <= r.epoch + 1
            && s.epoch == e.epoch && s.discovery == Some(Discovery(e.epoch, e))
            && (s.disposition == r.disposition || s.disposition.PendingRuntime?)
  {
    if e.epoch == r.epoch + 1 {
      StateChangeKeepsTimely(r.(epoch := e.epoch), e);
    }
  }

  lemma {:induction false} MarkKeepsSound(r: Receipt, stage: nat, status: Status)
    requires Sound(r) && stage < STAGES
    requires stage == DNS && status.Pass? && r.native.dnsRefreshRequired ==> r.epoch > r.native.preEpoch.value
    ensures Sound(MarkStage(r, stage, status)) && Follows(r, MarkStage(r, stage, status))
  {
  }

  /** Recording the component stage makes a receipt that can be persisted exactly when every installation stage is
      done; evidence that has just reset one of them therefore stops the run at the next write. */
  lemma {:induction false} ComponentPersistsIff(r: Receipt, reboot: bool)
    requires Valid(r) && !Done(r, COMPONENT)
    ensures Valid(MarkStage(r.(rebootRequired := Some(reboot)), COMPONENT, Pass)) <==> Installed(r)
  {
    var s := MarkStage(r.(rebootRequired := Some(reboot)), COMPONENT, Pass);
    assert forall k :: 0 <= k < STAGES && k != COMPONENT ==> s.stages[k] == r.stages[k];
    assert Installed(s) == Installed(r) && AllPassed(s) == AllPassed(r) && AdoptedPattern(s) == AdoptedPattern(r);
    assert forall k :: COMPONENT < k < STAGES ==> !IsDone(r.stages[k]);
    if !Installed(r) {
      assert IsDone(s.stages[COMPONENT]);
    }
  }

  // ---- Resuming under another intent ----

  /** `validate_intent_compatible`: the same intent, or the same identity with strictly more authority. */
  function Upgraded(r: Receipt, intent: Intent): Result<(Receipt, bool), InstallError> {
    if r.intent == intent then Ok((r, false))
    else if r.identity != intent.identity then Err(Refused)
    else if (r.mayMove && !intent.mayMove) || (r.mayReboot && !intent.mayReboot) then Err(Refused)
    else if r.mayMove == intent.mayMove && r.mayReboot == intent.mayReboot then Err(Refused)
    else Ok((r.(mayMove := intent.mayMove, mayReboot := intent.mayReboot, intent := intent), true))
  }

  /** Resuming succeeds exactly for the same identity without loss of authority, and then the receipt carries the new
      intent and nothing else is different. */
  lemma {:induction false} UpgradeOnlyGrows(r: Receipt, intent: Intent)
    requires Good(r)
    ensures Upgraded(r, intent).Ok? <==>
              r.identity == intent.identity && (r.mayMove ==> intent.mayMove) && (r.mayReboot ==> intent.mayReboot)
    ensures Upgraded(r, intent).Ok? ==>
              var (s, changed) := Upgraded(r, intent).value;
              && Good(s) && Follows(r, s) && s.intent == intent && (changed <==> s != r)
              && s == r.(intent := intent, mayMove := intent.mayMove, mayReboot := intent.mayReboot)
  {
  }

  /** So after evidence that opens a new epoch the component stage can be recorded exactly when the installation was
      complete and the evidence does not reset a part of it. */
  lemma {:induction false} ComponentAfterEvidenceIff(r: Receipt, e: Evidence, reboot: bool)
    requires Valid(r) && !Done(r, COMPONENT) && e.epoch != r.epoch && Accept(r, e).Ok?
    requires r.discovery.Some? ==> r.discovery.value.epoch == r.epoch
    ensures var s := Accept(r, e).value;
            && |s.stages| == STAGES
            && (Valid(MarkStage(s.(rebootRequired := Some(reboot)), COMPONENT, Pass)) <==>
                  Installed(r) && !e.change.OptChange? && !e.change.XrayChange? && !e.change.Contradictory?)
  {
    AcceptKeepsValid(r, e);
    AcceptKeepsShape(r, e);
    var t := r.(epoch := e.epoch);
    InstallationAfterChange(t, e);
    ComponentPersistsIff(Accept(r, e).value, reboot);
  }

  lemma {:induction false} InstallationAfterChange(r: Receipt, e: Evidence)
    requires |r.stages| == STAGES && Ordered(r.stages) && !Done(r, COMPONENT)
    ensures |Reset(r, e).stages| == STAGES && !Done(Reset(r, e), COMPONENT)
    ensures Installed(Reset(r, e)) <==>
              Installed(r) && !e.change.OptChange? && !e.change.XrayChange? && !e.change.Contradictory?
  {
    ResetKeepsShape(r, e);
    match e.change {
      case OptChange => assert Reset(r, e).stages[STORAGE] == UNTOUCHED;
      case XrayChange => assert Reset(r, e).stages[BOOTSTRAP] == UNTOUCHED;
      case Contradictory => assert Reset(r, e).stages[NETWORK] == UNTOUCHED;
      case _ =>
    }
  }

  // ---- The runtime as evidence reports it ----

  /** Adopted as found, or executed elsewhere. */
  function RuntimeStages(r: Receipt): seq<StageRecord>
    requires |r.stages| == STAGES
  {
    seq(STAGES, k requires 0 <= k < STAGES =>
      if k > AUTOSTART then r.stages[k]
      else StageRecord(if r.identity.adopt then AdoptedStatus(k) else Pass, Some(r.epoch)))
  }

  function WithRuntime(r: Receipt, e: Evidence, manifest: string): Receipt
    requires |r.stages| == STAGES
  {
    SyncFinal(r.(endpoint := Some(manifest), runtimeEvidence := Some(e), stages := RuntimeStages(r),
                 disposition := if r.identity.adopt then Adopted else ExternalExecuted))
  }

  /** Accepting a runtime from evidence always makes a receipt that can be persisted. */
  lemma {:induction false} AcceptedRuntimeIsValid(r: Receipt, e: Evidence, manifest: string)
    requires Valid(r) && r.identity.mode.ExternalEvidence? && r.disposition.PendingRuntime?
    ensures Valid(WithRuntime(r, e, manifest))
  {
    var s := WithRuntime(r, e, manifest);
    var open :| 0 <= open <= AUTOSTART && !IsDone(r.stages[open]);
    forall k | AUTOSTART < k < STAGES ensures s.stages[k] == r.stages[k] && !IsDone(s.stages[k]) {
    }
    assert Installed(s);
  }

  // ---- Runs ----

  /** What the stages of an invocation do to the receipt in memory, and to the file. None of these steps asks whether
      the receipt's epochs make sense; only a write is checked, and by `validate_receipt` alone. */
  datatype Move =
    | AcceptMove(evidence: Evidence)
    | MarkMove(stage: nat, status: Status)
    | RuntimeMove(runtime: Evidence, manifest: string)
    | NoteMove(noted: Receipt)
    | PlanMove(native: Native)
    | ProgressMove(native: Native)
    | DnsMove
    | UpgradeMove(intent: Intent)
    | WriteMove
    | ReloadMove

  /** The receipts written so far, and the one in memory. */
  datatype Place = Place(history: seq<Receipt>, working: Receipt)

  /** Bookkeeping beside stages, epochs, native transaction and identity. */
  predicate OnlyNotes(r: Receipt, s: Receipt) {
    s == r.(endpoint := s.endpoint, disposition := s.disposition, runtimeEvidence := s.runtimeEvidence,
            rebootRequired := s.rebootRequired, completedReboot := s.completedReboot, dnsGate := s.dnsGate,
            final := s.final)
  }

  lemma {:induction false} ResetKeepsShape(r: Receipt, e: Evidence)
    requires |r.stages| == STAGES
    ensures |Reset(r, e).stages| == STAGES
  {
    match e.change {
      case ComponentChange => assert |ResetFrom(r, COMPONENT).stages| == STAGES;
      case RebootChange => assert |ResetFrom(r, REBOOT).stages| == STAGES;
      case OptChange => assert |ResetFrom(r, STORAGE).stages| == STAGES;
      case XrayChange => assert |ResetFrom(r, BOOTSTRAP).stages| == STAGES;
      case Contradictory => assert |ResetFrom(r, NETWORK).stages| == STAGES;
      case NativeChange => assert |ResetFrom(r, NATIVE).stages| == STAGES;
      case NoChange =>
    }
  }

  lemma {:induction false} AcceptKeepsShape(r: Receipt, e: Evidence)
    requires |r.stages| == STAGES && Accept(r, e).Ok?
    ensures |Accept(r, e).value.stages| == STAGES
  {
    ResetKeepsShape(r.(epoch := e.epoch), e);
  }

  /** What one step makes of the receipt in memory, if the stage that makes it would: the DNS gate wants a later epoch
      than a native write that asked for fresh evidence, and a native transaction is dated only while neither it nor
      the DNS stage is done. */
  function Changed(r: Receipt, m: Move): (s: Option<Receipt>)
    requires |r.stages| == STAGES
    ensures s.Some? ==> |s.value.stages| == STAGES
  {
    match m
    case AcceptMove(e) => if Accept(r, e).Ok? then AcceptKeepsShape(r, e); Some(Accept(r, e).value) else None
    case MarkMove(stage, status) => if stage < STAGES && stage != DNS then Some(MarkStage(r, stage, status)) else None
    case RuntimeMove(e, manifest) => Some(WithRuntime(r, e, manifest))
    case NoteMove(s) => if OnlyNotes(r, s) then Some(s) else None
    case PlanMove(n) =>
      if n.preEpoch == Some(r.epoch) && !Done(r, NATIVE) && !Done(r, DNS) then Some(r.(native := n)) else None
    case ProgressMove(n) =>
      if n.preEpoch == r.native.preEpoch && n.dnsRefreshRequired == r.native.dnsRefreshRequired
      then Some(r.(native := n)) else None
    case DnsMove =>
      if r.native.dnsRefreshRequired && r.native.preEpoch.Some? && r.epoch <= r.native.preEpoch.value then None
      else Some(MarkStage(r, DNS, Pass))
    case UpgradeMove(intent) => if Upgraded(r, intent).Ok? then Some(Upgraded(r, intent).value.0) else None
    case WriteMove => Some(r)
    case ReloadMove => Some(r)
  }

  /** One step: a write adds to the history what the validator accepts, a new process reads back the last receipt. */
  function Moved(p: Place, m: Move): (q: Option<Place>)
    requires Shaped(p)
    ensures q.Some? ==> Shaped(q.value)
  {
    if m.WriteMove? then if Valid(p.working) then Some(Place(p.history + [p.working], p.working)) else None
    else if m.ReloadMove? then Some(p.(working := p.history[|p.history| - 1]))
    else
      var s := Changed(p.working, m);
      if s.Some? then Some(p.(working := s.value)) else None
  }

  predicate Shaped(p: Place) {
    p.history != [] && |p.working.stages| == STAGES && |p.history[|p.history| - 1].stages| == STAGES
  }

  /** Where a sequence of steps leads from a fresh receipt, if all of them can be made. */
  function Play(intent: Intent, moves: seq<Move>): (p: Option<Place>)
    ensures p.Some? ==> Shaped(p.value)
  {
    if moves == [] then Some(Place([InitialReceipt(intent)], InitialReceipt(intent)))
    else
      var before := Play(intent, moves[..|moves| - 1]);
      if before.None? then None else Moved(before.value, moves[|moves| - 1])
  }

  /** Some run has written this history and holds this receipt. */
  ghost predicate Reachable(history: seq<Receipt>, working: Receipt) {
    exists intent, moves :: Play(intent, moves) == Some(Place(history, working))
  }

  lemma {:induction false} FreshIsReachable(intent: Intent)
    ensures Reachable([InitialReceipt(intent)], InitialReceipt(intent))
  {
    assert Play(intent, []) == Some(Place([InitialReceipt(intent)], InitialReceipt(intent)));
  }

  lemma {:induction false} ReachableShape(history: seq<Receipt>, r: Receipt)
    requires Reachable(history, r)
    ensures Shaped(Place(history, r))
  {
  }

  lemma {:induction false} Reaches(history: seq<Receipt>, r: Receipt, m: Move)
    requires Reachable(history, r)
    requires Shaped(Place(history, r)) && Moved(Place(history, r), m).Some?
    ensures var q := Moved(Place(history, r), m).value; Reachable(q.history, q.working)
  {
    var intent, moves :| Play(intent, moves) == Some(Place(history, r));
    var longer := moves + [m];
    assert longer[..|longer| - 1] == moves && longer[|longer| - 1] == m;
    assert Play(intent, longer) == Moved(Place(history, r), m);
  }

  /** A step in memory, a write, and a new process that reads the file. */
  lemma {:induction false} ReachesInMemory(history: seq<Receipt>, r: Receipt, m: Move, s: Receipt)
    requires Reachable(history, r) && |r.stages| == STAGES && !m.WriteMove? && !m.ReloadMove?
             && Changed(r, m) == Some(s)
    ensures Reachable(history, s)
  {
    ReachableShape(history, r);
    Reaches(history, r, m);
  }

  lemma {:induction false} ReachesTheFile(history: seq<Receipt>, r: Receipt)
    requires Reachable(history, r)
    ensures history != [] && Reachable(history, history[|history| - 1])
    ensures Valid(r) ==> Reachable(history + [r], r)
  {
    ReachableShape(history, r);
    Reaches(history, r, ReloadMove);
    if Valid(r) {
      ReachesWritten(history, r);
    }
  }

  lemma {:induction false} ReachesWritten(history: seq<Receipt>, r: Receipt)
    requires Reachable(history, r) && Valid(r)
    ensures Reachable(history + [r], r)
  {
    ReachableShape(history, r);
    Reaches(history, r, WriteMove);
  }

  // ---- What every run keeps ----

  predicate Good(r: Receipt) {
    Valid(r) && Sound(r)
  }

  /** Each receipt is valid and sound and follows the one before it. */
  ghost predicate GoodRun(history: seq<Receipt>) {
    && history != [] && Good(history[|history| - 1])
    && (|history| > 1 ==>
          GoodRun(history[..|history| - 1]) && Follows(history[|history| - 2], history[|history| - 1]))
  }

  ghost predicate GoodPlace(p: Place) {
    GoodRun(p.history) && Sound(p.working) && Follows(p.history[|p.history| - 1], p.working)
  }

  lemma {:induction false} RunExtends(history: seq<Receipt>, r: Receipt)
    requires GoodRun(history) && Good(r) && Follows(history[|history| - 1], r)
    ensures GoodRun(history + [r])
  {
    assert (history + [r])[..|history|] == history;
  }

  lemma {:induction false} FreshReceiptIsGood(intent: Intent)
    ensures GoodPlace(Place([InitialReceipt(intent)], InitialReceipt(intent)))
  {
    InitialReceiptIsValid(intent);
  }

  /** So accepting a runtime from evidence keeps a good receipt good. */
  lemma {:induction false} AcceptedRuntimeIsGood(r: Receipt, e: Evidence, manifest: string)
    requires Good(r) && r.identity.mode.ExternalEvidence? && r.disposition.PendingRuntime?
    ensures Good(WithRuntime(r, e, manifest)) && Follows(r, WithRuntime(r, e, manifest))
  {
    AcceptedRuntimeIsValid(r, e, manifest);
    RuntimeKeepsSound(r, e, manifest);
  }

  /** The steps that change the receipt in memory keep it sound, and what they make follows it. */
  lemma {:induction false} StepKeepsSound(p: Place, m: Move)
    requires GoodPlace(p) && Shaped(p) && Moved(p, m).Some? && !m.WriteMove? && !m.ReloadMove?
    ensures var q := Moved(p, m).value;
            q.history == p.history && Sound(q.working) && Follows(p.working, q.working)
  {
    var r := p.working;
    match m {
      case AcceptMove(e) => AcceptAdvances(r, e);
      case MarkMove(stage, status) => MarkKeepsSound(r, stage, status);
      case DnsMove => MarkKeepsSound(r, DNS, Pass);
      case RuntimeMove(e, manifest) => RuntimeKeepsSound(r, e, manifest);
      case PlanMove(n) => PlanKeepsSound(r, n);
      case _ =>
    }
  }

  lemma {:induction false} RuntimeKeepsSound(r: Receipt, e: Evidence, manifest: string)
    requires Sound(r)
    ensures Sound(WithRuntime(r, e, manifest)) && Follows(r, WithRuntime(r, e, manifest))
  {
  }

  lemma {:induction false} PlanKeepsSound(r: Receipt, n: Native)
    requires Sound(r) && n.preEpoch == Some(r.epoch) && !Done(r, DNS)
    ensures Sound(r.(native := n))
  {
  }

  lemma {:induction false} MoveKeepsGood(p: Place, m: Move)
    requires GoodPlace(p) && Shaped(p) && Moved(p, m).Some?
    ensures GoodPlace(Moved(p, m).value)
  {
    if m.WriteMove? {
      RunExtends(p.history, p.working);
    } else if !m.ReloadMove? {
      StepKeepsSound(p, m);
      FollowsIsTransitive(p.history[|p.history| - 1], p.working, Moved(p, m).value.working);
    }
  }

  lemma {:induction false} PlayIsGood(intent: Intent, moves: seq<Move>)
    requires Play(intent, moves).Some?
    ensures GoodPlace(Play(intent, moves).value)
  {
    if moves == [] {
      FreshReceiptIsGood(intent);
    } else {
      PlayIsGood(intent, moves[..|moves| - 1]);
      MoveKeepsGood(Play(intent, moves[..|moves| - 1]).value, moves[|moves| - 1]);
    }
  }

  /** Every run is good: what was written is valid, and written or not, receipts have their epochs in order. */
  lemma {:induction false} EveryRunIsGood(history: seq<Receipt>, working: Receipt)
    requires Reachable(history, working)
    ensures GoodRun(history) && Sound(working) && Follows(history[|history| - 1], working)
  {
    var intent, moves :| Play(intent, moves) == Some(Place(history, working));
    PlayIsGood(intent, moves);
  }

  lemma {:induction false} RunFollows(history: seq<Receipt>, i: nat, j: nat)
    requires GoodRun(history) && i <= j < |history|
    ensures Good(history[i]) && Good(history[j]) && (i < j ==> Follows(history[i], history[j]))
    decreases |history|
  {
    var front := history[..|history| - 1];
    if j < |history| - 1 {
      RunFollows(front, i, j);
    } else if i < j {
      RunFollows(front, i, j - 1);
      if i < j - 1 {
        FollowsIsTransitive(history[i], history[j - 1], history[j]);
      }
    }
  }

  /** A final PASS rests on a fully reported installation, on stages none of which is from the future, and, after a
      required native write, on DNS evidence from a strictly later epoch than that write. */
  predicate FinalPassIsFresh(r: Receipt) {
    && |r.stages| == STAGES
    && (r.stages[FINAL_RESULT].status.Pass? ==>
          && AllReported(ExpectedFinal(r)) && StagesInPast(r)
          && (r.native.dnsRefreshRequired ==>
                r.native.preEpoch.Some? && r.stages[DNS].epoch.Some?
                && r.native.preEpoch.value < r.stages[DNS].epoch.value <= r.epoch))
  }

  /** Whatever a run does, this holds of everything it ever wrote. */
  lemma {:induction false} FinalPassMeansFreshDns(history: seq<Receipt>, working: Receipt, i: nat)
    requires Reachable(history, working) && i < |history|
    ensures FinalPassIsFresh(history[i])
  {
    EveryRunIsGood(history, working);
    RunFollows(history, i, i);
  }

  /** Along what a run wrote: one evidence per epoch, epochs and authority never shrink, the identity is fixed, and a
      discovery is of the current epoch. */
  lemma {:induction false} RunIsMonotone(history: seq<Receipt>, working: Receipt, i: nat, j: nat)
    requires Reachable(history, working) && i <= j < |history|
    ensures history[i].epoch <= history[j].epoch && history[i].identity == history[j].identity
    ensures (history[i].mayMove ==> history[j].mayMove) && (history[i].mayReboot ==> history[j].mayReboot)
    ensures history[i].epoch == history[j].epoch && history[i].discovery.Some? ==>
              history[j].discovery == history[i].discovery
    ensures history[i].discovery.Some? ==> history[i].discovery.value.epoch == history[i].epoch
  {
    EveryRunIsGood(history, working);
    RunFollows(history, i, j);
  }

  // ---- A receipt between installation and component ----

  /** The checks network and storage readiness asks for. */
  const READINESS := {Management, Wan, Lan, Wifi, UsbOpt, Entware}

  const LOCAL := Intent(Identity("local", LocalRouter, false, "v1", "router", 1), false, false)
  const NO_RUNTIME := Runtime(false, false, false, None, false, false, false, false, false, None)

  /** The network is ready, the native component is not installed yet. */
  const FIRST_EVIDENCE := Evidence(
    0, NoChange, READINESS, NO_RUNTIME, false, false, false, false, false, UnknownBinding, {}, {}, false, false, false,
    false)

  /** The component is there and works, but the binary has been replaced meanwhile. */
  const REPLACED_XRAY := FIRST_EVIDENCE.(
    epoch := 1, change := XrayChange, passed := {ProxyComponent}, componentPresent := true)

  /** The first n stages have passed. */
  function PassedThrough(r: Receipt, n: nat): Receipt
    requires |r.stages| == STAGES && n <= STAGES
  {
    r.(stages := seq(STAGES, k requires 0 <= k < STAGES =>
         if k < n then StageRecord(Pass, Some(r.epoch)) else r.stages[k]))
  }

  function Discovered(): Receipt {
    InitialReceipt(LOCAL).(discovery := Some(Discovery(0, FIRST_EVIDENCE)))
  }

  /** A local installation that is complete, with the component stage next. */
  function ReadyForComponent(): Receipt {
    PassedThrough(Discovered(), AUTOSTART + 1).(
      disposition := Executed, endpoint := Some("manifest"), final := Final(true, true, true, false, false, false))
  }

  lemma {:induction false} PassingIsReachable(history: seq<Receipt>, r: Receipt, n: nat)
    requires Reachable(history, r) && |r.stages| == STAGES && n <= AUTOSTART + 1
    ensures Reachable(history, PassedThrough(r, n))
  {
    if n == 0 {
      assert PassedThrough(r, 0).stages == r.stages;
      assert PassedThrough(r, 0) == r;
    } else {
      PassingIsReachable(history, r, n - 1);
      var before := PassedThrough(r, n - 1);
      assert MarkStage(before, n - 1, Pass).stages == PassedThrough(r, n).stages;
      ReachesInMemory(history, before, MarkMove(n - 1, Pass), PassedThrough(r, n));
    }
  }

  lemma {:induction false} ReadyIsValid()
    ensures Valid(ReadyForComponent()) && Installed(ReadyForComponent()) && !Done(ReadyForComponent(), COMPONENT)
  {
  }

  lemma {:induction false} ReadyIsComplete()
    ensures var r := ReadyForComponent();
            && |r.stages| == STAGES && Installed(r) && r.identity.mode.LocalRouter? && r.intent == LOCAL
            && r.endpoint == Some("manifest")
  {
    ReadyIsValid();
  }

  /** A run writes that receipt. */
  lemma {:induction false} ReadyIsReachable()
    ensures Reachable([InitialReceipt(LOCAL), ReadyForComponent()], ReadyForComponent())
  {
    var r := InitialReceipt(LOCAL);
    FreshIsReachable(LOCAL);
    ReachesInMemory([r], r, AcceptMove(FIRST_EVIDENCE), Discovered());
    PassingIsReachable([r], Discovered(), AUTOSTART + 1);
    ReachesInMemory(
      [r], PassedThrough(Discovered(), AUTOSTART + 1), NoteMove(ReadyForComponent()), ReadyForComponent());
    ReadyIsValid();
    ReachesTheFile([r], ReadyForComponent());
    assert [r] + [ReadyForComponent()] == [r, ReadyForComponent()];
  }

  /** Accepted evidence lets the component stage be recorded next. */
  predicate ComponentIsNext(r: Receipt, e: Evidence) {
    && |r.stages| == STAGES && e.componentPresent && ProxyComponent in e.passed && Accept(r, e).Ok?
    && |Accept(r, e).value.stages| == STAGES && !Done(Accept(r, e).value, COMPONENT)
  }

  /** Evidence good enough for the component stage that undoes a part of the installation. */
  predicate Undercuts(r: Receipt, e: Evidence) {
    ComponentIsNext(r, e) && !Installed(Accept(r, e).value)
  }

  /** An instance: the binary was replaced between two epochs. Both guards of the component stage let the evidence
      pass, and the receipt with the component stage would not be valid. */
  lemma {:induction false} ResetBeforeComponentIsRefused()
    ensures REPLACED_XRAY.componentPresent && ProxyComponent in REPLACED_XRAY.passed
    ensures Valid(ReadyForComponent()) && Undercuts(ReadyForComponent(), REPLACED_XRAY)
    ensures var s := Accept(ReadyForComponent(), REPLACED_XRAY).value;
            && Valid(s)
            && !Valid(MarkStage(s.(rebootRequired := Some(REPLACED_XRAY.componentReboot)), COMPONENT, Pass))
  {
    var r := ReadyForComponent();
    ReadyIsValid();
    AcceptKeepsValid(r, REPLACED_XRAY);
    AcceptKeepsShape(r, REPLACED_XRAY);
    InstallationAfterChange(r.(epoch := 1), REPLACED_XRAY);
    ComponentAfterEvidenceIff(r, REPLACED_XRAY, REPLACED_XRAY.componentReboot);
  }
}
