/** Catchable signals around mutable bootstrap work (scripts/routerkit_bootstrap_apply.py:62-73, 147-222). */
module BootstrapLifecycle {
  import opened Wrappers

  datatype Phase = Inactive | Active | Terminating | Recovery | Cleanup | Restoring

  /** What a step can raise. A rollback error is an apply error whose exit code is 3. */
  datatype Raised =
    | ApplyError(code: int)
    | RollbackError
    | Termination(signum: nat, prior: Option<int>, recoveryVerified: bool)
    | Interrupt
    | OtherError

  const UNPROVEN := 3

  /** The process exit code a raised error ends in. */
  function ExitCode(raised: Raised): int {
    match raised
    case ApplyError(code) => code
    case RollbackError => UNPROVEN
    case Termination(signum, prior, _) => if prior.Some? && prior.value != 0 then prior.value else 128 + signum
    case Interrupt => 130
    case OtherError => 1
  }

  /** The lifecycle's fields as one value. */
  datatype State = State(phase: Phase, requested: Option<nat>, recovering: bool)

  /** The handler: remember the first signal; raise only when work is active. Without a handler nothing happens here. */
  function Handled(s: State, signum: nat): (State, Option<Raised>) {
    if s.phase.Inactive? then (s, None)
    else
      var noted := s.(requested := if s.requested.None? then Some(signum) else s.requested);
      if s.phase.Active? then (noted.(phase := Terminating), Some(Termination(signum, None, false))) else (noted, None)
  }

  function RecoveryBegun(s: State): State {
    s.(recovering := true, phase := Recovery)
  }

  function RecoveryEnded(s: State): State {
    s.(recovering := false, phase := if s.requested.Some? then Terminating else Active)
  }

  function Restored(s: State): State {
    s.(phase := Inactive, recovering := false)
  }

  /** After a child process the phase is recomputed from the recovery flag alone. */
  function ChildReaped(s: State): State {
    s.(phase := if s.recovering then Recovery else Active)
  }

  /** `raise_if_requested`: a pending signal raises as soon as no recovery is under way. */
  function RequestRaised(s: State, prior: Option<int>): (State, Option<Raised>) {
    if s.requested.Some? && !s.recovering
    then (s.(phase := Terminating), Some(Termination(s.requested.value, prior, false)))
    else (s, None)
  }

  /** One moment of a run as the environment decides it. */
  datatype Event = Event(
    signal: Option<nat>, failure: Option<Raised>, residue: bool, version: Option<string>, childCode: Option<int>)

  /** The failure an event injects: an ordinary error, an operating-system error or a keyboard interrupt. */
  function Failure(event: Event): Option<Raised> {
    if event.failure.None? then None
    else if event.failure.value.Interrupt? || event.failure.value.OtherError? then event.failure
    else Some(ApplyError(1))
  }

  /** A moment between two statements: a signal may arrive. */
  function Windowed(s: State, event: Event): (State, Option<Raised>) {
    if event.signal.None? then (s, None) else Handled(s, event.signal.value)
  }

  /** A step that may be interrupted by a signal or fail. */
  function Tried(s: State, event: Event): (State, Option<Raised>) {
    var (next, raised) := Windowed(s, event);
    (next, if raised.Some? then raised else Failure(event))
  }

  // ---- Signals over time ----

  /** The first signal in a stretch of time. */
  ghost function Heard(events: nat -> Event, from: nat, until: nat): Option<nat>
    decreases until
  {
    if until <= from then None
    else
      var earlier := Heard(events, from, until - 1);
      if earlier.Some? then earlier else events(until - 1).signal
  }

  ghost predicate Silent(events: nat -> Event, from: nat, until: nat) {
    forall i :: from <= i < until ==> events(i).signal.None?
  }

  /** Neither a signal nor a failure. */
  ghost predicate Calm(events: nat -> Event, from: nat, until: nat) {
    forall i :: from <= i < until ==> events(i).signal.None? && events(i).failure.None?
  }

  /** Nothing is heard exactly in silence. */
  lemma {:induction false} SilenceIsUnheard(events: nat -> Event, from: nat, until: nat)
    ensures Heard(events, from, until).None? <==> Silent(events, from, until)
    decreases until
  {
    if from < until {
      SilenceIsUnheard(events, from, until - 1);
      assert Silent(events, from, until) <==> Silent(events, from, until - 1) && events(until - 1).signal.None?;
    }
  }

  class Lifecycle {
    /** The moments to come: any signals and failures are possible. */
    const events: nat -> Event
    var clock: nat
    var phase: Phase
    var requested: Option<nat>
    var recovering: bool
    /** When the handlers were taken over. */
    ghost var heardFrom: nat

    constructor (events: nat -> Event)
      ensures this.events == events && Now() == State(Inactive, None, false) && clock == 0
    {
      this.events, clock, phase, requested, recovering, heardFrom := events, 0, Inactive, None, false, 0;
    }

    ghost function Now(): State
      reads this
    {
      State(phase, requested, recovering)
    }

    /** While handlers are in place the request is the first signal since they were. */
    ghost predicate Listening()
      reads this
    {
      phase.Inactive? || (heardFrom <= clock && requested == Heard(events, heardFrom, clock))
    }

    /** Take over the handlers; if that fails they are put back. A signal in between is noted and does not raise. */
    method Install() returns (raised: Option<Raised>)
      requires Now() == State(Inactive, None, false)
      modifies this
      ensures old(clock) < clock <= old(clock) + 2 && heardFrom == old(clock)
      ensures raised == (if events(old(clock)).failure.Some? then Some(ApplyError(1)) else None)
      ensures Now() == State(if raised.None? then Active else Inactive, Heard(events, heardFrom, clock), false)
      ensures raised.None? ==> clock == old(clock) + 1
    {
      raised := None;
      heardFrom := clock;
      clock := clock + 1;
      requested := events(clock - 1).signal;
      assert Heard(events, heardFrom, clock) == requested;
      if events(clock - 1).failure.Some? {
        raised := Restore();
        return Some(ApplyError(1));
      }
      phase := Active;
    }

    /** Give the handlers back, one after the other: a first signal that still meets ours is noted, and a handler that
        cannot be put back makes this fail. Either way the lifecycle is over. */
    method Restore() returns (raised: Option<Raised>)
      modifies this`clock, this`phase, this`requested, this`recovering
      ensures clock == old(clock) + 1
      ensures raised == (if events(old(clock)).failure.Some? then Some(ApplyError(1)) else None)
      ensures Now() == Restored(Windowed(old(Now()).(phase := Restoring), events(old(clock))).0)
      ensures !old(phase).Inactive? && old(Listening()) ==> requested == Heard(events, heardFrom, clock)
    {
      var event := events(clock);
      phase := Restoring;
      var none := Window();
      raised := if event.failure.Some? then Some(ApplyError(1)) else None;
      recovering := false;
      phase := Inactive;
    }

    method BeginRecovery()
      modifies this`phase, this`recovering
      ensures Now() == RecoveryBegun(old(Now()))
    {
      recovering := true;
      phase := Recovery;
    }

    method EndRecovery()
      modifies this`phase, this`recovering
      ensures Now() == RecoveryEnded(old(Now()))
    {
      recovering := false;
      phase := if requested.Some? then Terminating else Active;
    }

    method BeginCleanup()
      modifies this`phase
      ensures Now() == old(Now()).(phase := Cleanup)
    {
      phase := Cleanup;
    }

    method ChildStarted() returns (raised: Option<Raised>)
      modifies this`phase
      ensures (Now(), raised) == RequestRaised(ChildReaped(old(Now())), None)
    {
      phase := if recovering then Recovery else Active;
      raised := RaiseIfRequested(None);
    }

    method Reap()
      modifies this`phase
      ensures Now() == ChildReaped(old(Now()))
    {
      phase := if recovering then Recovery else Active;
    }

    method RaiseIfRequested(prior: Option<int>) returns (raised: Option<Raised>)
      modifies this`phase
      ensures (Now(), raised) == RequestRaised(old(Now()), prior)
    {
      raised := None;
      if requested.Some? && !recovering {
        phase := Terminating;
        raised := Some(Termination(requested.value, prior, false));
      }
    }

    method HandleSignal(signum: nat) returns (raised: Option<Raised>)
      modifies this`phase, this`requested
      ensures (Now(), raised) == Handled(old(Now()), signum)
    {
      if phase.Inactive? {
        return None;
      }
      if requested.None? {
        requested := Some(signum);
      }
      if phase.Active? {
        phase := Terminating;
        return Some(Termination(signum, None, false));
      }
      return None;
    }

    /** Between two statements: a signal may arrive and, in an active phase, raise. */
    method Window() returns (raised: Option<Raised>)
      modifies this`clock, this`phase, this`requested
      ensures clock == old(clock) + 1 && (old(Listening()) ==> Listening())
      ensures (Now(), raised) == Windowed(old(Now()), events(old(clock)))
    {
      var event := events(clock);
      clock := clock + 1;
      raised := None;
      if event.signal.Some? {
        raised := HandleSignal(event.signal.value);
      }
    }

    /** A step that may be interrupted by a signal or fail; None means it went through. */
    method Try() returns (raised: Option<Raised>, event: Event)
      modifies this`clock, this`phase, this`requested
      ensures (old(Listening()) ==> Listening()) && clock == old(clock) + 1 && event == events(old(clock))
      ensures (Now(), raised) == Tried(old(Now()), event)
      ensures SteppedFrom(old(Now()), Now(), raised)
    {
      event := events(clock);
      raised := Window();
      if raised.None? {
        raised := Failure(event);
      }
    }

    /** A step that runs a child process to its end: like any step, except that a request already pending stops it
        unless recovery is under way. The child's own exit code is never what a termination reports. */
    method RunChild() returns (raised: Option<Raised>, event: Event)
      requires Listening() && (phase.Active? || phase.Recovery?) && (recovering <==> phase.Recovery?)
      modifies this`clock, this`phase, this`requested
      ensures Listening() && clock == old(clock) + 1 && event == events(old(clock))
      ensures if old(requested).Some? && !old(recovering)
              then raised.Some? && raised.value.Termination? && phase.Terminating? && requested == old(requested)
              else (Now(), raised) == Tried(old(Now()), event)
      ensures raised.Some? && raised.value.Termination? ==> raised.value.prior.None?
      ensures SteppedFrom(old(Now()), Now(), raised)
    {
      event := events(clock);
      raised := Window();
      if raised.Some? {
        return;
      }
      raised := ChildStarted();
      if raised.Some? {
        return;
      }
      Reap();
      raised := RaiseIfRequested(event.childCode);
      if raised.None? {
        raised := Failure(event);
      }
    }
  }

  /** What one step may do to the lifecycle: the recovery flag stays, the first request is remembered, only an active
      phase is left, and it is left by raising a termination. */
  predicate SteppedFrom(before: State, after: State, raised: Option<Raised>) {
    && after.recovering == before.recovering
    && (before.requested.Some? ==> after.requested == before.requested)
    && (match raised
        case Some(Termination(_, prior, verified)) =>
          before.phase.Active? && after.phase.Terminating? && after.requested.Some? && prior.None? && !verified
        case Some(ApplyError(code)) => code == 1 && after.phase == before.phase
        case Some(RollbackError) => false
        case _ => after.phase == before.phase)
    && (before.phase.Active? && raised.None? ==> after.requested == before.requested)
  }
}
