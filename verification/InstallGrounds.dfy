/** What a newly passed stage of live-install rests on: which tools were asked, what they answered, and what the
    evidence shows (scripts/routerkit_live_install.py:861-885, 1050-1647). */
module InstallGrounds {
  import opened Wrappers
  import opened InstallReceipt
  import opened InstallRuns

  /** Whom an invocation asks: the delegated commands, and the files it reads and writes. */
  datatype Tool =
    | PreflightTool | BootstrapTool | SetupTool | BackupTool | InstallTool | HealthcheckTool | AutostartTool
    | NativePlanTool | NativeApplyTool | PacketBuilder | PacketFile | RunningSnapshot | SavedSnapshot
    | ManifestFile | ReceiptFile

  /** What a delegated tool, a file or a snapshot turns out to be. */
  datatype Outcome = Outcome(
    succeeds: bool, code: int, manifest: Option<string>, slotEnabled: bool, verified: bool, writeRequired: bool,
    fingerprint: string)

  datatype Arguments = Arguments(
    firstRun: bool, endpointFile: bool, localTransport: bool, preSnapshot: Option<string>, postSnapshot: Option<string>,
    savedSnapshot: Option<string>)

  /** The command line and all answers to come. */
  datatype World = World(args: Arguments, outcomes: nat -> Outcome)

  /** How far an invocation has come: the receipt in memory, what has been written, and whom it has asked so far. */
  datatype Stand = Stand(receipt: Receipt, history: seq<Receipt>, asked: seq<Tool>)

  // ---- What was asked and answered ----

  /** The tool was asked, no earlier than position `from`, and succeeded. */
  predicate Succeeded(w: World, asked: seq<Tool>, from: nat, tool: Tool) {
    exists i :: from <= i < |asked| && asked[i] == tool && w.outcomes(i).succeeds
  }

  predicate Verified(w: World, asked: seq<Tool>, from: nat, tool: Tool) {
    exists i :: from <= i < |asked| && asked[i] == tool && w.outcomes(i).succeeds && w.outcomes(i).verified
  }

  predicate ManifestRead(w: World, asked: seq<Tool>, from: nat) {
    exists i :: from <= i < |asked| && asked[i] == ManifestFile && w.outcomes(i).manifest.Some?
  }

  // ---- What the evidence shows ----

  predicate ShowsReadiness(e: Evidence) {
    Management in e.passed && Wan in e.passed && Lan in e.passed && Wifi in e.passed && UsbOpt in e.passed
    && Entware in e.passed
  }

  predicate ShowsRecovery(e: Evidence) {
    ShowsReadiness(e) && XrayCheck in e.passed && Listeners in e.passed
  }

  /** The target router runs this release with this manifest, and has survived a reboot if it is to be adopted. */
  predicate ShowsRuntime(e: Evidence, identity: Identity, manifest: string) {
    && ShowsRecovery(e)
    && e.runtime == Runtime(true, true, true, Some(identity.artifact), true, true, true, e.runtime.rebootRecovery, true,
                            Some(manifest))
    && (identity.adopt ==> e.runtime.rebootRecovery)
  }

  /** Protected, verified DNS on a path without binding, or bound to an interface the policy uses. */
  predicate ShowsDns(e: Evidence) {
    && e.dnsProtected && e.dnsVerified && !e.availability.UnknownBinding?
    && (e.availability.Interfaces? ==> exists i :: i in e.boundInterfaces && i in e.policyInterfaces)
  }

  predicate ShowsClient(e: Evidence) {
    e.clientAssigned && e.domainDns && e.domainHttps && e.probed
  }

  // ---- The grounds of each stage ----

  /** The runtime was found as the manifest at hand describes it. */
  predicate RuntimeShown(w: World, identity: Identity, asked: seq<Tool>, from: nat, e: Option<Evidence>) {
    e.Some? && exists i :: from <= i < |asked| && asked[i] == ManifestFile && w.outcomes(i).slotEnabled
                           && w.outcomes(i).manifest.Some?
                           && ShowsRuntime(e.value, identity, w.outcomes(i).manifest.value)
  }

  predicate InstallationGrounds(w: World, k: nat, asked: seq<Tool>, from: nat, e: Option<Evidence>) {
    if k <= STORAGE then e.Some? && ShowsReadiness(e.value) && Succeeded(w, asked, from, PreflightTool)
    else if k == BOOTSTRAP then Succeeded(w, asked, from, BootstrapTool)
    else if k <= STRICT_PLAN then Succeeded(w, asked, from, SetupTool) && ManifestRead(w, asked, from)
    else if k == BACKUP then Succeeded(w, asked, from, BackupTool)
    else if k == INSTALL then Succeeded(w, asked, from, InstallTool)
    else if k == HEALTHCHECK then Succeeded(w, asked, from, HealthcheckTool)
    else Verified(w, asked, from, AutostartTool)
  }

  /** Planned, then applied and verified by the local adapter, and the receipt says what it reported. */
  predicate AppliedLocally(w: World, r: Receipt, asked: seq<Tool>, from: nat) {
    exists i :: from <= i && i + 1 < |asked|
                && asked[i] == NativePlanTool && w.outcomes(i).succeeds
                && asked[i + 1] == NativeApplyTool && w.outcomes(i + 1).succeeds && w.outcomes(i + 1).verified
                && r.native.writeRequired == r.native.saveRequired == Some(w.outcomes(i + 1).writeRequired)
                && r.native.dnsRefreshRequired == w.outcomes(i + 1).writeRequired
  }

  /** A packet was built and verified against the snapshot of the state before, and the receipt describes it. */
  predicate PlannedExternally(w: World, n: Native, asked: seq<Tool>, from: nat) {
    && n.preSnapshot == w.args.preSnapshot && w.args.preSnapshot.Some?
    && exists i :: from <= i < |asked| && asked[i] == PacketBuilder && w.outcomes(i).succeeds && w.outcomes(i).verified
                   && n.fingerprint == Some(w.outcomes(i).fingerprint)
                   && n.writeRequired == n.saveRequired == Some(w.outcomes(i).writeRequired)
                   && n.dnsRefreshRequired == w.outcomes(i).writeRequired
  }

  /** The packet on file is the one on record. */
  predicate PacketMatched(w: World, n: Native, asked: seq<Tool>, from: nat) {
    exists i :: from <= i < |asked| && asked[i] == PacketFile && w.outcomes(i).succeeds
                && n.fingerprint == Some(w.outcomes(i).fingerprint)
  }

  /** The running state was verified from another snapshot than the planned one, now or by an earlier invocation. */
  predicate RunningProven(w: World, before: Native, n: Native, asked: seq<Tool>, from: nat) {
    || (before.status.RunningVerified? && n == before.(status := n.status))
    || (Verified(w, asked, from, RunningSnapshot) && PacketMatched(w, n, asked, from)
        && w.args.postSnapshot.Some? && n.runningSnapshot == w.args.postSnapshot != n.preSnapshot)
  }

  /** A transaction that has to be saved was verified from a third snapshot. */
  predicate SaveProven(w: World, n: Native, asked: seq<Tool>, from: nat) {
    n.saveRequired == Some(true) ==>
      && Verified(w, asked, from, SavedSnapshot) && w.args.savedSnapshot.Some?
      && w.args.savedSnapshot != n.preSnapshot && w.args.savedSnapshot != n.runningSnapshot
  }

  predicate NativeGrounds(w: World, before: Receipt, r: Receipt, asked: seq<Tool>, from: nat) {
    if w.args.localTransport then AppliedLocally(w, r, asked, from)
    else
      PacketMatched(w, r.native, asked, from) && RunningProven(w, before.native, r.native, asked, from)
      && SaveProven(w, r.native, asked, from)
  }

  /** The reboot was not needed, or it was made and the evidence is of the epoch after it. */
  predicate RebootGrounds(k: nat, r: Receipt, record: StageRecord, e: Option<Evidence>) {
    if record.status.Skipped? then r.rebootRequired != Some(true)
    else
      && r.rebootRequired == Some(true) && e.Some? && e.value.rebootCompleted && e.value.change.RebootChange?
      && (k == REBOOT_PROOF ==> ShowsRecovery(e.value))
  }

  /** Fresh protected DNS, from a later epoch than a native write that asked for it. */
  predicate DnsGrounds(n: Native, e: Option<Evidence>) {
    && e.Some? && ShowsDns(e.value)
    && (n.dnsRefreshRequired ==> n.preEpoch.Some? && e.value.epoch > n.preEpoch.value)
  }

  predicate Justified(
    w: World, k: nat, before: Receipt, r: Receipt, asked: seq<Tool>, from: nat, e: Option<Evidence>)
    requires k < |r.stages|
  {
    if k <= AUTOSTART then
      if r.identity.mode.ExternalEvidence? then RuntimeShown(w, r.identity, asked, from, e)
      else InstallationGrounds(w, k, asked, from, e)
    else if k == COMPONENT then e.Some? && e.value.componentPresent && ProxyComponent in e.value.passed
    else if k <= REBOOT_PROOF then RebootGrounds(k, r, r.stages[k], e)
    else if k == NATIVE then NativeGrounds(w, before, r, asked, from)
    else if k == DNS then DnsGrounds(r.native, e)
    else if k == CLIENT then e.Some? && ShowsClient(e.value)
    else true
  }

  /** What the native transaction on record has come to is proven too, whether or not its stage is done. */
  predicate NativeAdvanced(w: World, before: Native, n: Native, asked: seq<Tool>, from: nat) {
    && (n.status.Planned? ==> n == before || PlannedExternally(w, n, asked, from))
    && (n.status.RunningVerified? ==> RunningProven(w, before, n, asked, from))
  }

  /** Between two receipts only stages from `first` up to `until` were newly passed, each on its grounds. */
  predicate Earned(
    w: World, before: Receipt, r: Receipt, asked: seq<Tool>, from: nat, e: Option<Evidence>, first: nat, until: nat)
  {
    && |before.stages| == STAGES && |r.stages| == STAGES && r.identity == before.identity
    && (NATIVE < first ==> r.native == before.native)
    && (COMPONENT < first ==> r.rebootRequired == before.rebootRequired)
    && NativeAdvanced(w, before.native, r.native, asked, from)
    && forall k {:trigger r.stages[k]} :: 0 <= k < STAGES && IsDone(r.stages[k]) && r.stages[k] != before.stages[k] ==>
         first <= k < until && Justified(w, k, before, r, asked, from, e)
  }

  /** So is every stage of every receipt written meanwhile. */
  predicate WrittenDeserved(
    w: World, before: Receipt, written: seq<Receipt>, history: seq<Receipt>, asked: seq<Tool>, from: nat,
    e: Option<Evidence>, first: nat, until: nat)
  {
    && written <= history
    && forall i {:trigger history[i]} :: |written| <= i < |history| ==>
         Earned(w, before, history[i], asked, from, e, first, until)
  }

  predicate Deserved(w: World, a: Stand, b: Stand, e: Option<Evidence>, first: nat, until: nat) {
    && a.asked <= b.asked
    && Earned(w, a.receipt, b.receipt, b.asked, |a.asked|, e, first, until)
    && WrittenDeserved(w, a.receipt, a.history, b.history, b.asked, |a.asked|, e, first, until)
  }

  // ---- Grounds last, and add up ----

  lemma {:induction false} AskedStays(
    w: World, asked: seq<Tool>, longer: seq<Tool>, from: nat, tool: Tool)
    requires asked <= longer
    ensures Succeeded(w, asked, from, tool) ==> Succeeded(w, longer, from, tool)
    ensures Verified(w, asked, from, tool) ==> Verified(w, longer, from, tool)
    ensures ManifestRead(w, asked, from) ==> ManifestRead(w, longer, from)
  {
    if Succeeded(w, asked, from, tool) {
      var i :| from <= i < |asked| && asked[i] == tool && w.outcomes(i).succeeds;
      assert longer[i] == tool;
    }
    if Verified(w, asked, from, tool) {
      var i :| from <= i < |asked| && asked[i] == tool && w.outcomes(i).succeeds && w.outcomes(i).verified;
      assert longer[i] == tool;
    }
    if ManifestRead(w, asked, from) {
      var i :| from <= i < |asked| && asked[i] == ManifestFile && w.outcomes(i).manifest.Some?;
      assert longer[i] == ManifestFile;
    }
  }

  /** Counting from an earlier point asks for less. */
  lemma {:induction false} AskedFromEarlier(w: World, asked: seq<Tool>, earlier: nat, from: nat, tool: Tool)
    requires earlier <= from
    ensures Succeeded(w, asked, from, tool) ==> Succeeded(w, asked, earlier, tool)
    ensures Verified(w, asked, from, tool) ==> Verified(w, asked, earlier, tool)
    ensures ManifestRead(w, asked, from) ==> ManifestRead(w, asked, earlier)
  {
  }

  lemma {:induction false} GroundsStay(
    w: World, k: nat, asked: seq<Tool>, longer: seq<Tool>, earlier: nat, from: nat, e: Option<Evidence>)
    requires asked <= longer && earlier <= from
    ensures InstallationGrounds(w, k, asked, from, e) ==> InstallationGrounds(w, k, longer, earlier, e)
  {
    var tool := if k <= STORAGE then PreflightTool else if k == BOOTSTRAP then BootstrapTool
                else if k <= STRICT_PLAN then SetupTool else if k == BACKUP then BackupTool
                else if k == INSTALL then InstallTool else if k == HEALTHCHECK then HealthcheckTool else AutostartTool;
    AskedStays(w, asked, longer, from, tool);
    AskedFromEarlier(w, longer, earlier, from, tool);
  }

  lemma {:induction false} RuntimeStays(
    w: World, identity: Identity, asked: seq<Tool>, longer: seq<Tool>, earlier: nat, from: nat, e: Option<Evidence>)
    requires asked <= longer && earlier <= from
    ensures RuntimeShown(w, identity, asked, from, e) ==> RuntimeShown(w, identity, longer, earlier, e)
  {
    if RuntimeShown(w, identity, asked, from, e) {
      var i :| from <= i < |asked| && asked[i] == ManifestFile && w.outcomes(i).slotEnabled
               && w.outcomes(i).manifest.Some? && ShowsRuntime(e.value, identity, w.outcomes(i).manifest.value);
      assert longer[i] == ManifestFile;
    }
  }

  lemma {:induction false} AppliedStays(
    w: World, r: Receipt, asked: seq<Tool>, longer: seq<Tool>, earlier: nat, from: nat)
    requires asked <= longer && earlier <= from
    ensures AppliedLocally(w, r, asked, from) ==> AppliedLocally(w, r, longer, earlier)
  {
    if AppliedLocally(w, r, asked, from) {
      var i :| from <= i && i + 1 < |asked|
               && asked[i] == NativePlanTool && w.outcomes(i).succeeds
               && asked[i + 1] == NativeApplyTool && w.outcomes(i + 1).succeeds && w.outcomes(i + 1).verified
               && r.native.writeRequired == r.native.saveRequired == Some(w.outcomes(i + 1).writeRequired)
               && r.native.dnsRefreshRequired == w.outcomes(i + 1).writeRequired;
      assert longer[i] == NativePlanTool && longer[i + 1] == NativeApplyTool;
    }
  }

  lemma {:induction false} PlannedStays(
    w: World, n: Native, asked: seq<Tool>, longer: seq<Tool>, earlier: nat, from: nat)
    requires asked <= longer && earlier <= from
    ensures PlannedExternally(w, n, asked, from) ==> PlannedExternally(w, n, longer, earlier)
    ensures PacketMatched(w, n, asked, from) ==> PacketMatched(w, n, longer, earlier)
  {
    if PlannedExternally(w, n, asked, from) {
      var i :| from <= i < |asked| && asked[i] == PacketBuilder && w.outcomes(i).succeeds && w.outcomes(i).verified
               && n.fingerprint == Some(w.outcomes(i).fingerprint)
               && n.writeRequired == n.saveRequired == Some(w.outcomes(i).writeRequired)
               && n.dnsRefreshRequired == w.outcomes(i).writeRequired;
      assert longer[i] == PacketBuilder;
    }
    if PacketMatched(w, n, asked, from) {
      var i :| from <= i < |asked| && asked[i] == PacketFile && w.outcomes(i).succeeds
               && n.fingerprint == Some(w.outcomes(i).fingerprint);
      assert longer[i] == PacketFile;
    }
  }

  lemma {:induction false} ProofsStay(
    w: World, before: Native, n: Native, asked: seq<Tool>, longer: seq<Tool>, earlier: nat, from: nat)
    requires asked <= longer && earlier <= from
    ensures RunningProven(w, before, n, asked, from) ==> RunningProven(w, before, n, longer, earlier)
    ensures SaveProven(w, n, asked, from) ==> SaveProven(w, n, longer, earlier)
  {
    PlannedStays(w, n, asked, longer, earlier, from);
    AskedStays(w, asked, longer, from, RunningSnapshot);
    AskedStays(w, asked, longer, from, SavedSnapshot);
    AskedFromEarlier(w, longer, earlier, from, RunningSnapshot);
    AskedFromEarlier(w, longer, earlier, from, SavedSnapshot);
  }

  lemma {:induction false} AdvanceStays(
    w: World, before: Native, n: Native, asked: seq<Tool>, longer: seq<Tool>, earlier: nat, from: nat)
    requires asked <= longer && earlier <= from
    ensures NativeAdvanced(w, before, n, asked, from) ==> NativeAdvanced(w, before, n, longer, earlier)
  {
    PlannedStays(w, n, asked, longer, earlier, from);
    ProofsStay(w, before, n, asked, longer, earlier, from);
  }

  lemma {:induction false} NativeGroundsStay(
    w: World, before: Receipt, r: Receipt, asked: seq<Tool>, longer: seq<Tool>, earlier: nat, from: nat)
    requires asked <= longer && earlier <= from
    ensures NativeGrounds(w, before, r, asked, from) ==> NativeGrounds(w, before, r, longer, earlier)
  {
    AppliedStays(w, r, asked, longer, earlier, from);
    PlannedStays(w, r.native, asked, longer, earlier, from);
    ProofsStay(w, before.native, r.native, asked, longer, earlier, from);
  }

  lemma {:induction false} JustifiedStays(
    w: World, k: nat, before: Receipt, r: Receipt, asked: seq<Tool>, longer: seq<Tool>, earlier: nat, from: nat,
    e: Option<Evidence>)
    requires k < |r.stages| && asked <= longer && earlier <= from
    ensures Justified(w, k, before, r, asked, from, e) ==> Justified(w, k, before, r, longer, earlier, e)
  {
    GroundsStay(w, k, asked, longer, earlier, from, e);
    RuntimeStays(w, r.identity, asked, longer, earlier, from, e);
    NativeGroundsStay(w, before, r, asked, longer, earlier, from);
  }

  /** What is earned stays earned when more is asked, and in a wider range. */
  lemma {:induction false} EarnedStays(
    w: World, before: Receipt, r: Receipt, asked: seq<Tool>, longer: seq<Tool>, from: nat, e: Option<Evidence>,
    first: nat, until: nat, wider: nat, farther: nat)
    requires Earned(w, before, r, asked, from, e, first, until) && asked <= longer && wider <= first && until <= farther
    ensures Earned(w, before, r, longer, from, e, wider, farther)
  {
    AdvanceStays(w, before.native, r.native, asked, longer, from, from);
    forall k | 0 <= k < STAGES && IsDone(r.stages[k]) && r.stages[k] != before.stages[k]
      ensures wider <= k < farther && Justified(w, k, before, r, longer, from, e)
    {
      JustifiedStays(w, k, before, r, asked, longer, from, from, e);
    }
  }

  lemma {:induction false} RunningProofAdds(
    w: World, a: Native, b: Native, c: Native, asked: seq<Tool>, longer: seq<Tool>, earlier: nat)
    requires earlier <= |asked| && asked <= longer
    requires NativeAdvanced(w, a, b, asked, earlier) && RunningProven(w, b, c, longer, |asked|)
    ensures RunningProven(w, a, c, longer, earlier)
  {
    ProofsStay(w, a, b, asked, longer, earlier, earlier);
    ProofsStay(w, b, c, longer, longer, earlier, |asked|);
  }

  lemma {:induction false} AdvancesAdd(
    w: World, a: Native, b: Native, c: Native, asked: seq<Tool>, longer: seq<Tool>, earlier: nat)
    requires earlier <= |asked| && asked <= longer
    requires NativeAdvanced(w, a, b, asked, earlier) && NativeAdvanced(w, b, c, longer, |asked|)
    ensures NativeAdvanced(w, a, c, longer, earlier)
  {
    AdvanceStays(w, a, b, asked, longer, earlier, earlier);
    AdvanceStays(w, b, c, longer, longer, earlier, |asked|);
    if c.status.RunningVerified? {
      RunningProofAdds(w, a, b, c, asked, longer, earlier);
    }
  }

  lemma {:induction false} NativeGroundsAdd(
    w: World, a: Receipt, b: Receipt, c: Receipt, asked: seq<Tool>, longer: seq<Tool>, earlier: nat)
    requires earlier <= |asked| && asked <= longer && NativeAdvanced(w, a.native, b.native, asked, earlier)
    requires NativeGrounds(w, b, c, longer, |asked|)
    ensures NativeGrounds(w, a, c, longer, earlier)
  {
    NativeGroundsStay(w, b, c, longer, longer, earlier, |asked|);
    if !w.args.localTransport {
      RunningProofAdds(w, a.native, b.native, c.native, asked, longer, earlier);
    }
  }

  /** Two parts of an invocation, one after the other. */
  lemma {:induction false} StageEarnedTogether(
    w: World, a: Receipt, b: Receipt, c: Receipt, asked: seq<Tool>, longer: seq<Tool>, earlier: nat,
    e: Option<Evidence>, first: nat, middle: nat, next: nat, until: nat, k: nat)
    requires earlier <= |asked| && asked <= longer && first <= next && middle <= next <= until
    requires Earned(w, a, b, asked, earlier, e, first, middle) && Earned(w, b, c, longer, |asked|, e, next, until)
    requires k < STAGES && IsDone(c.stages[k]) && c.stages[k] != a.stages[k]
    ensures first <= k < until && Justified(w, k, a, c, longer, earlier, e)
  {
    if c.stages[k] == b.stages[k] {
      assert k < middle;
      JustifiedStays(w, k, a, b, asked, longer, earlier, earlier, e);
    } else {
      JustifiedStays(w, k, b, c, longer, longer, earlier, |asked|, e);
      if k == NATIVE {
        NativeGroundsAdd(w, a, b, c, asked, longer, earlier);
      }
    }
  }

  lemma {:induction false} EarnedTogether(
    w: World, a: Receipt, b: Receipt, c: Receipt, asked: seq<Tool>, longer: seq<Tool>, earlier: nat,
    e: Option<Evidence>, first: nat, middle: nat, next: nat, until: nat)
    requires earlier <= |asked| && asked <= longer && first <= next && middle <= next <= until
    requires Earned(w, a, b, asked, earlier, e, first, middle) && Earned(w, b, c, longer, |asked|, e, next, until)
    ensures Earned(w, a, c, longer, earlier, e, first, until)
  {
    AdvancesAdd(w, a.native, b.native, c.native, asked, longer, earlier);
    forall k | 0 <= k < STAGES && IsDone(c.stages[k]) && c.stages[k] != a.stages[k]
      ensures first <= k < until && Justified(w, k, a, c, longer, earlier, e)
    {
      StageEarnedTogether(w, a, b, c, asked, longer, earlier, e, first, middle, next, until, k);
    }
  }

  lemma {:induction false} DeservedTogether(
    w: World, a: Stand, b: Stand, c: Stand, e: Option<Evidence>, first: nat, middle: nat, next: nat, until: nat)
    requires Deserved(w, a, b, e, first, middle) && Deserved(w, b, c, e, next, until)
    requires first <= next && middle <= next <= until
    ensures Deserved(w, a, c, e, first, until)
  {
    var from := |a.asked|;
    EarnedTogether(w, a.receipt, b.receipt, c.receipt, b.asked, c.asked, from, e, first, middle, next, until);
    forall i | |a.history| <= i < |c.history|
      ensures Earned(w, a.receipt, c.history[i], c.asked, from, e, first, until)
    {
      if i < |b.history| {
        assert c.history[i] == b.history[i];
        EarnedStays(w, a.receipt, c.history[i], b.asked, c.asked, from, e, first, middle, first, until);
      } else {
        EarnedTogether(w, a.receipt, b.receipt, c.history[i], b.asked, c.asked, from, e, first, middle, next, until);
      }
    }
  }

  lemma {:induction false} DeservedWider(
    w: World, a: Stand, b: Stand, e: Option<Evidence>, first: nat, until: nat, wider: nat, farther: nat)
    requires Deserved(w, a, b, e, first, until) && wider <= first && until <= farther
    ensures Deserved(w, a, b, e, wider, farther)
  {
    EarnedStays(w, a.receipt, b.receipt, b.asked, b.asked, |a.asked|, e, first, until, wider, farther);
    forall i | |a.history| <= i < |b.history|
      ensures Earned(w, a.receipt, b.history[i], b.asked, |a.asked|, e, wider, farther)
    {
      EarnedStays(w, a.receipt, b.history[i], b.asked, b.asked, |a.asked|, e, first, until, wider, farther);
    }
  }

  /** One attempt to write what has been made ends a part. */
  predicate WrittenOnce(a: Stand, b: Stand) {
    a.asked <= b.asked && (b.history == a.history || b.history == a.history + [b.receipt])
  }

  lemma {:induction false} DeservedOnce(w: World, a: Stand, b: Stand, e: Option<Evidence>, first: nat, until: nat)
    requires WrittenOnce(a, b) && Earned(w, a.receipt, b.receipt, b.asked, |a.asked|, e, first, until)
    ensures Deserved(w, a, b, e, first, until)
  {
  }

  /** A part may come after one that has written already. */
  lemma {:induction false} DeservedAfter(
    w: World, a: Stand, b: Stand, c: Stand, e: Option<Evidence>, first: nat, middle: nat, until: nat)
    requires Deserved(w, a, b, e, first, middle) && WrittenOnce(b, c) && middle <= until
    requires Earned(w, a.receipt, c.receipt, c.asked, |a.asked|, e, first, until)
    ensures Deserved(w, a, c, e, first, until)
  {
    forall i | |a.history| <= i < |c.history|
      ensures Earned(w, a.receipt, c.history[i], c.asked, |a.asked|, e, first, until)
    {
      if i < |b.history| {
        assert c.history[i] == b.history[i];
        EarnedStays(w, a.receipt, c.history[i], b.asked, c.asked, |a.asked|, e, first, middle, first, until);
      }
    }
  }

  /** Nothing but bookkeeping, or a stage that failed. */
  lemma {:induction false} NothingEarned(
    w: World, before: Receipt, r: Receipt, asked: seq<Tool>, from: nat, e: Option<Evidence>, first: nat, until: nat)
    requires |before.stages| == STAGES && |r.stages| == STAGES && r.identity == before.identity
    requires r.native == before.native && r.rebootRequired == before.rebootRequired
    requires forall k :: 0 <= k < STAGES && IsDone(r.stages[k]) ==> r.stages[k] == before.stages[k]
    ensures Earned(w, before, r, asked, from, e, first, until)
  {
  }

  lemma {:induction false} DeservedIdle(w: World, a: Stand, b: Stand, e: Option<Evidence>, first: nat, until: nat)
    requires WrittenOnce(a, b) && b.receipt == a.receipt && |a.receipt.stages| == STAGES
    ensures Deserved(w, a, b, e, first, until)
  {
    NothingEarned(w, a.receipt, b.receipt, b.asked, |a.asked|, e, first, until);
  }

  lemma {:induction false} DeservedFailure(
    w: World, a: Stand, b: Stand, stage: nat, e: Option<Evidence>, first: nat, until: nat)
    requires WrittenOnce(a, b) && |a.receipt.stages| == STAGES && stage < STAGES
    requires b.receipt == MarkStage(a.receipt, stage, Fail)
    ensures Deserved(w, a, b, e, first, until)
  {
    NothingEarned(w, a.receipt, b.receipt, b.asked, |a.asked|, e, first, until);
  }

  /** Stages from `first` up to `until` were recorded, and nothing else of weight was touched. */
  predicate OnlyStages(a: Receipt, b: Receipt, first: nat, until: nat) {
    && |a.stages| == STAGES && |b.stages| == STAGES && until <= STAGES
    && b.identity == a.identity && b.native == a.native && (b.rebootRequired == a.rebootRequired || first <= COMPONENT)
    && forall k :: 0 <= k < STAGES && !(first <= k < until) ==> b.stages[k] == a.stages[k]
  }

  lemma {:induction false} DeservedStages(w: World, a: Stand, b: Stand, e: Option<Evidence>, first: nat, until: nat)
    requires WrittenOnce(a, b) && OnlyStages(a.receipt, b.receipt, first, until)
    requires forall k :: first <= k < until && IsDone(b.receipt.stages[k]) ==>
               Justified(w, k, a.receipt, b.receipt, b.asked, |a.asked|, e)
    ensures Deserved(w, a, b, e, first, until)
  {
    assert Earned(w, a.receipt, b.receipt, b.asked, |a.asked|, e, first, until);
  }

  lemma {:induction false} DeservedStage(w: World, a: Stand, b: Stand, e: Option<Evidence>, k: nat)
    requires WrittenOnce(a, b) && OnlyStages(a.receipt, b.receipt, k, k + 1)
    requires Justified(w, k, a.receipt, b.receipt, b.asked, |a.asked|, e)
    ensures Deserved(w, a, b, e, k, k + 1)
  {
    DeservedStages(w, a, b, e, k, k + 1);
  }

  /** The first tool asked after a point. */
  lemma {:induction false} AskedFirst(w: World, before: seq<Tool>, tool: Tool, asked: seq<Tool>)
    requires before + [tool] <= asked && w.outcomes(|before|).succeeds
    ensures Succeeded(w, asked, |before|, tool)
    ensures w.outcomes(|before|).verified ==> Verified(w, asked, |before|, tool)
  {
    assert asked[|before|] == tool;
  }

  lemma {:induction false} ResetPassesNothing(r: Receipt, e: Evidence)
    requires |r.stages| == STAGES
    ensures var s := Reset(r, e);
            && |s.stages| == STAGES && s.identity == r.identity && (s.native == r.native || s.native == NO_NATIVE)
            && forall k :: 0 <= k < STAGES && IsDone(s.stages[k]) ==> s.stages[k] == r.stages[k]
  {
    match e.change {
      case ComponentChange => ResetFromPassesNothing(r, COMPONENT);
      case RebootChange => ResetFromPassesNothing(r, REBOOT);
      case OptChange => ResetFromPassesNothing(r, STORAGE);
      case XrayChange => ResetFromPassesNothing(r, BOOTSTRAP);
      case Contradictory => ResetFromPassesNothing(r, NETWORK);
      case NativeChange => ResetFromPassesNothing(r, NATIVE);
      case NoChange =>
    }
  }

  lemma {:induction false} ResetFromPassesNothing(r: Receipt, start: nat)
    requires |r.stages| == STAGES && start <= NATIVE
    ensures var s := ResetFrom(r, start);
            && |s.stages| == STAGES && s.identity == r.identity && s.native == NO_NATIVE
            && forall k :: 0 <= k < STAGES && IsDone(s.stages[k]) ==> s.stages[k] == r.stages[k]
  {
  }

  /** Evidence only ever undoes stages, and a native transaction it undoes is forgotten. */
  lemma {:induction false} EvidenceEarnsNothing(
    w: World, r: Receipt, e: Evidence, asked: seq<Tool>, from: nat, o: Option<Evidence>, at: nat)
    requires |r.stages| == STAGES && at <= COMPONENT
    ensures Earned(w, r, if Accept(r, e).Ok? then Accept(r, e).value else r, asked, from, o, at, at)
  {
    ResetPassesNothing(r.(epoch := e.epoch), e);
  }

  /** The runtime recorded from evidence that shows it. */
  lemma {:induction false} RuntimeEarned(
    w: World, r: Receipt, e: Evidence, manifest: string, asked: seq<Tool>, from: nat)
    requires |r.stages| == STAGES && r.identity.mode.ExternalEvidence? && Accept(r, e).Ok?
    requires RuntimeShown(w, r.identity, asked, from, Some(e))
    ensures |Accept(r, e).value.stages| == STAGES
    ensures Earned(w, r, WithRuntime(Accept(r, e).value, e, manifest), asked, from, Some(e), 0, COMPONENT)
  {
    ResetPassesNothing(r.(epoch := e.epoch), e);
    var s := WithRuntime(Accept(r, e).value, e, manifest);
    forall k | 0 <= k < STAGES && IsDone(s.stages[k]) && s.stages[k] != r.stages[k]
      ensures k < COMPONENT && Justified(w, k, r, s, asked, from, Some(e))
    {
    }
  }

  // ---- A run that can go through ----

  /** Everything that is asked succeeds and verifies, the manifest is the same throughout, and the local adapter has
      nothing to write. */
  ghost predicate Helpful(w: World, manifest: string) {
    && w.args.localTransport
    && forall i {:trigger w.outcomes(i)} ::
         w.outcomes(i).succeeds && w.outcomes(i).verified && w.outcomes(i).manifest == Some(manifest)
         && !w.outcomes(i).writeRequired
  }

  /** Ready network and storage, a working component that needs no reboot, protected DNS and a working client. */
  predicate ShowsAll(e: Evidence) {
    && e.change.NoChange? && ShowsReadiness(e) && e.componentPresent && ProxyComponent in e.passed
    && !e.componentReboot && ShowsDns(e) && ShowsClient(e)
  }

  /** A local installation on its way, no further than the component, with nothing on record that stands against the
      manifest or the evidence. */
  predicate Underway(r: Receipt, e: Evidence, manifest: string) {
    && |r.stages| == STAGES && r.identity.mode.LocalRouter? && r.runtimeEvidence.None?
    && (r.endpoint.Some? ==> r.endpoint == Some(manifest))
    && r.epoch == e.epoch && (r.discovery.Some? ==> r.discovery == Some(Discovery(e.epoch, e)))
    && !r.stages[NETWORK].status.Fail? && !r.stages[STORAGE].status.Fail?
    && (forall k :: 0 <= k <= AUTOSTART ==> !r.stages[k].status.Skipped?)
    && r.rebootRequired != Some(true) && !IsDone(r.stages[REBOOT])
  }

  lemma {:induction false} UnderwayAccepts(r: Receipt, e: Evidence, manifest: string)
    requires Underway(r, e, manifest) && e.change.NoChange?
    ensures Accept(r, e) == Ok(r.(discovery := Some(Discovery(e.epoch, e))))
    ensures Underway(Accept(r, e).value, e, manifest)
  {
  }

  /** The receipt after some installation stages have passed. */
  function StagesPassed(r: Receipt, first: nat, until: nat): Receipt
    requires |r.stages| == STAGES && first <= until <= AUTOSTART
  {
    r.(stages := seq(STAGES, k requires 0 <= k < STAGES =>
         if first <= k < until then StageRecord(Pass, Some(r.epoch)) else r.stages[k]),
       final := r.final.(xray := r.final.xray || first <= HEALTHCHECK < until))
  }

  /** Installation stages passed in their order can be written. */
  lemma {:induction false} StagesCanPass(r: Receipt, e: Evidence, manifest: string, first: nat, until: nat)
    requires Valid(r) && Underway(r, e, manifest) && first < until <= AUTOSTART && !Done(r, until - 1)
    requires (first > 0 ==> Done(r, first - 1)) && (until > STRICT_PLAN ==> r.endpoint == Some(manifest))
    ensures Valid(StagesPassed(r, first, until)) && Underway(StagesPassed(r, first, until), e, manifest)
  {
    var s := StagesPassed(r, first, until);
    forall k | until <= k < STAGES ensures !IsDone(s.stages[k]) {
      assert s.stages[k] == r.stages[k];
    }
    assert !Done(r, AUTOSTART) && !Done(s, AUTOSTART);
    forall i, j | 0 <= i < j < STAGES && IsDone(s.stages[j]) ensures IsDone(s.stages[i]) {
    }
  }

  function AutostartPassed(r: Receipt): Receipt
    requires |r.stages| == STAGES
  {
    MarkStage(r, AUTOSTART, Pass).(
      disposition := Executed, final := r.final.(installation := true, autostart := true))
  }

  lemma {:induction false} AutostartCanPass(r: Receipt, e: Evidence, manifest: string)
    requires Valid(r) && Underway(r, e, manifest) && Done(r, HEALTHCHECK) && !Done(r, AUTOSTART)
    ensures Valid(AutostartPassed(r)) && Underway(AutostartPassed(r), e, manifest)
  {
    var s := AutostartPassed(r);
    assert forall k :: 0 <= k < STAGES && k != AUTOSTART ==> s.stages[k] == r.stages[k];
    forall k | 0 <= k <= AUTOSTART ensures s.stages[k].status.Pass? {
      assert k < AUTOSTART ==> Done(r, k);
    }
    assert Installed(s) && AllPassed(s);
  }

  function RebootSkipped(r: Receipt): Receipt
    requires |r.stages| == STAGES
  {
    MarkStage(MarkStage(r, REBOOT, Skipped), REBOOT_PROOF, Skipped)
  }

  lemma {:induction false} RebootCanBeSkipped(r: Receipt)
    requires Valid(r) && Done(r, COMPONENT) && !Done(r, REBOOT)
    ensures Valid(RebootSkipped(r))
  {
    var s := RebootSkipped(r);
    assert forall k :: 0 <= k < STAGES && k != REBOOT && k != REBOOT_PROOF ==> s.stages[k] == r.stages[k];
    assert Installed(s) == Installed(r) && AllPassed(s) == AllPassed(r) && AdoptedPattern(s) == AdoptedPattern(r);
  }
}
