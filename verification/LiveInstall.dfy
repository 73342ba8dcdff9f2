/** The live-install stages over a mutable receipt (scripts/routerkit_live_install.py:545-657, 807-858, 1050-1647). */
module LiveInstall {
  import opened Wrappers
  import opened InstallReceipt
  import opened InstallRuns

  // ---- The receipt as an object ----

  class LiveReceipt {
    var intent: Intent
    var identity: Identity
    var disposition: Disposition
    var runtimeEvidence: Option<Evidence>
    var mayMove: bool
    var mayReboot: bool
    var endpoint: Option<string>
    var epoch: nat
    var discovery: Option<Discovery>
    var rebootRequired: Option<bool>
    var completedReboot: Option<nat>
    var native: Native
    var dnsGate: bool
    var final: Final
    var stages: seq<StageRecord>

    /** Loaded from a file, or made for a new intent. */
    constructor (r: Receipt)
      ensures Value() == r
    {
      intent, identity, disposition, runtimeEvidence := r.intent, r.identity, r.disposition, r.runtimeEvidence;
      mayMove, mayReboot, endpoint, epoch, discovery := r.mayMove, r.mayReboot, r.endpoint, r.epoch, r.discovery;
      rebootRequired, completedReboot, native := r.rebootRequired, r.completedReboot, r.native;
      dnsGate, final, stages := r.dnsGate, r.final, r.stages;
    }

    function Value(): Receipt
      reads this
    {
      Receipt(intent, identity, disposition, runtimeEvidence, mayMove, mayReboot, endpoint, epoch, discovery,
              rebootRequired, completedReboot, native, dnsGate, final, stages)
    }

    method Mark(stage: nat, status: Status)
      requires stage < |stages|
      modifies this`stages
      ensures Value() == MarkStage(old(Value()), stage, status)
    {
      stages := stages[stage := StageRecord(status, Some(epoch))];
    }

    method Sync()
      requires |stages| == STAGES
      modifies this`final
      ensures Value() == SyncFinal(old(Value()))
    {
      final := Final(forall k :: 0 <= k <= AUTOSTART ==> IsDone(stages[k]), IsDone(stages[HEALTHCHECK]),
                     IsDone(stages[AUTOSTART]), IsDone(stages[NATIVE]), IsDone(stages[DNS]), IsDone(stages[CLIENT]));
    }

    method ClearStages(start: nat)
      requires |stages| == STAGES && start < STAGES
      modifies this`stages
      ensures stages == Cleared(old(stages), start)
    {
      ghost var before := stages;
      for k := start to STAGES
        invariant |stages| == STAGES
        invariant forall j :: 0 <= j < STAGES ==> stages[j] == if start <= j < k then UNTOUCHED else before[j]
      {
        stages := stages[k := UNTOUCHED];
      }
    }

    method ForgetRuntime(start: nat)
      modifies this`endpoint, this`disposition, this`runtimeEvidence
      ensures Value() == old(Value()).(
                endpoint := if start <= GENERATE then None else old(endpoint),
                disposition := if start <= AUTOSTART then PendingRuntime else old(disposition),
                runtimeEvidence := if start <= AUTOSTART then None else old(runtimeEvidence))
    {
      if start <= GENERATE {
        endpoint := None;
      }
      if start <= AUTOSTART {
        disposition, runtimeEvidence := PendingRuntime, None;
      }
    }

    method ForgetNetwork(start: nat)
      modifies this`rebootRequired, this`completedReboot, this`native, this`dnsGate
      ensures Value() == old(Value()).(
                rebootRequired := if start <= COMPONENT then None else old(rebootRequired),
                completedReboot := if start <= REBOOT then None else old(completedReboot),
                native := if start <= NATIVE then NO_NATIVE else old(native),
                dnsGate := if start <= DNS then false else old(dnsGate))
    {
      if start <= COMPONENT {
        rebootRequired, completedReboot := None, None;
      } else if start <= REBOOT {
        completedReboot := None;
      }
      if start <= NATIVE {
        native := NO_NATIVE;
      }
      if start <= DNS {
        dnsGate := false;
      }
    }

    method Forget(start: nat)
      requires |stages| == STAGES && start < STAGES
      modifies this
      ensures Value() == ForgetFrom(old(Value()), start)
    {
      ClearStages(start);
      ForgetRuntime(start);
      ForgetNetwork(start);
    }

    method ResetStages(start: nat)
      requires |stages| == STAGES && start < STAGES
      modifies this
      ensures Value() == ResetFrom(old(Value()), start)
    {
      Forget(start);
      Sync();
    }

    /** `accept_discovery_evidence`; refused evidence leaves the receipt alone. */
    method AcceptEvidence(e: Evidence) returns (ok: bool)
      requires |stages| == STAGES
      modifies this
      ensures var accepted := Accept(old(Value()), e);
              && ok == accepted.Ok? && Value() == if ok then accepted.value else old(Value())
    {
      if discovery.Some? && discovery.value.epoch == e.epoch {
        return discovery.value.evidence == e;
      }
      if e.epoch == epoch {
        if !e.change.NoChange? {
          return false;
        }
      } else if e.epoch == epoch + 1 {
        if e.change.NoChange? {
          return false;
        }
        epoch := e.epoch;
        ApplyChange(e);
      } else {
        return false;
      }
      discovery := Some(Discovery(e.epoch, e));
      return true;
    }

    method ApplyChange(e: Evidence)
      requires |stages| == STAGES
      modifies this
      ensures Value() == Reset(old(Value()), e)
    {
      match e.change {
        case ComponentChange =>
          if IsDone(stages[COMPONENT]) {
            ResetStages(COMPONENT);
          }
        case RebootChange =>
          if IsDone(stages[REBOOT]) {
            ResetStages(REBOOT);
            rebootRequired := Some(true);
          }
        case OptChange => ResetStages(STORAGE);
        case XrayChange => ResetStages(BOOTSTRAP);
        case Contradictory => ResetStages(NETWORK);
        case NativeChange =>
          var expected := native.status.NativePass? && native.dnsRefreshRequired && native.preEpoch.Some?
                          && e.epoch == native.preEpoch.value + 1;
          if !expected && IsDone(stages[NATIVE]) {
            ResetStages(NATIVE);
          }
        case NoChange =>
      }
    }

    /** `validate_intent_compatible`. */
    method Upgrade(wanted: Intent) returns (ok: bool, changed: bool)
      modifies this
      ensures var upgraded := Upgraded(old(Value()), wanted);
              ok == upgraded.Ok? && (ok ==> (Value(), changed) == upgraded.value)
    {
      changed := false;
      if intent == wanted {
        return true, false;
      }
      if identity != wanted.identity {
        return false, false;
      }
      if mayMove && !wanted.mayMove {
        return false, false;
      }
      if wanted.mayMove && !mayMove {
        mayMove := true;
        changed := true;
      }
      if mayReboot && !wanted.mayReboot {
        return false, false;
      }
      if wanted.mayReboot && !mayReboot {
        mayReboot := true;
        changed := true;
      }
      if !changed {
        return false, false;
      }
      intent := Intent(identity, mayMove, mayReboot);
      ok := true;
    }
  }
}
