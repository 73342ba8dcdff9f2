/** The binary-replacement transaction (scripts/routerkit_bootstrap_apply.py:1021-1124, 1170-1477). */
module Bootstrap {
  import opened Wrappers
  import opened BootstrapLifecycle

  /** A file's content, named by its digest. */
  type Digest = string

  datatype Receipt = Receipt(
    release: string, archive: Digest, installed: Digest, version: string, backup: Option<Digest>)

  datatype Manifest = Manifest(release: string, archive: Digest, candidate: Digest, version: string)

  datatype Binary = Binary(digest: Digest, version: Option<string>)

  /** The files the transaction owns. A backup is filed under the digest it should have. */
  class FileSystem {
    var target: Option<Digest>
    var backups: map<Digest, Digest>
    var receipt: Option<Receipt>
    var staging: bool

    constructor (target: Option<Digest>, backups: map<Digest, Digest>, receipt: Option<Receipt>)
      ensures this.target == target && this.backups == backups && this.receipt == receipt && !staging
    {
      this.target, this.backups, this.receipt, staging := target, backups, receipt, false;
    }

    ghost predicate Backed(h: Digest)
      reads this
    {
      h in backups && backups[h] == h
    }
  }

  /** One run: the values the handlers look at, next to the files and the lifecycle. */
  class Transaction {
    const fs: FileSystem
    const l: Lifecycle
    const manifest: Manifest
    const ownedLifecycle: bool
    /** What the files held when the run began. */
    ghost const original: Option<Digest>
    ghost const originalReceipt: Option<Receipt>
    ghost const originalBackups: map<Digest, Digest>
    /** A backup filed under the original's digest holds something else. */
    ghost const damaged: bool

    var packagesInstalled: bool
    var existing: Option<Binary>
    var backup: Option<Digest>
    var replacementStarted: bool
    var postInstallVerified: bool
    var noop: bool
    var rollbackAttempted: bool
    var rollbackVerified: bool
    /** The candidate was downloaded, extracted and probed. */
    ghost var candidateChecked: bool
    /** The last attempted rollback did not get through. */
    ghost var unproven: bool
    /** When the last attempted rollback ended. */
    ghost var recoveredAt: nat

    constructor (fs: FileSystem, l: Lifecycle, manifest: Manifest, ownedLifecycle: bool)
      requires l.Listening() && !l.recovering && !fs.staging
      requires if ownedLifecycle then l.Now() == State(Inactive, None, false) else l.phase.Active?
      ensures this.fs == fs && this.l == l && this.manifest == manifest && this.ownedLifecycle == ownedLifecycle
      ensures original == fs.target && originalReceipt == fs.receipt && Ready() && !fs.staging
    {
      this.fs, this.l, this.manifest, this.ownedLifecycle := fs, l, manifest, ownedLifecycle;
      original, originalReceipt, originalBackups := fs.target, fs.receipt, fs.backups;
      damaged := fs.target.Some? && fs.target.value in fs.backups && fs.backups[fs.target.value] != fs.target.value;
      packagesInstalled, existing, backup, replacementStarted := false, None, None, false;
      postInstallVerified, noop, rollbackAttempted, rollbackVerified := false, false, false, false;
      unproven, recoveredAt, candidateChecked := false, 0, false;
    }

    // ---- What the handlers rely on ----

    /** The target differs from what it was only while a verified backup of that exists. */
    ghost predicate Guarded()
      reads this, fs
    {
      fs.target == original || original.None? || fs.Backed(original.value)
    }

    /** No backup but the original's is made, changed or lost. */
    ghost predicate OthersKept()
      reads this, fs
    {
      && (forall h :: Some(h) != original ==> (h in fs.backups <==> h in originalBackups))
      && (forall h :: Some(h) != original && h in fs.backups ==> fs.backups[h] == originalBackups[h])
    }

    ghost predicate Untouched()
      reads this, fs
    {
      fs.target == original && fs.receipt == originalReceipt && !replacementStarted && !rollbackAttempted
    }

    ghost predicate BackupsAsFound()
      reads this, fs
    {
      damaged <==> original.Some? && original.value in fs.backups && fs.backups[original.value] != original.value
    }

    /** A run about to begin. */
    ghost predicate Ready()
      reads this, fs, l
    {
      && Untouched() && fs.backups == originalBackups && Guarded() && BackupsAsFound()
      && !postInstallVerified && !unproven
      && l.Listening() && !l.recovering
      && (if ownedLifecycle then l.Now() == State(Inactive, None, false) else l.phase.Active?)
    }

    /** Replacement is under way and can be undone. */
    ghost predicate Replacing()
      reads this, fs
    {
      && replacementStarted && candidateChecked
      && (existing.None? <==> original.None?)
      && (original.Some? ==> existing.value.digest == original.value && backup == original && fs.Backed(original.value))
    }

    /** The validated candidate with a receipt of this release, which names the binary it replaced as its backup. */
    ghost predicate Installed()
      reads this, fs
    {
      && fs.target == Some(manifest.candidate)
      && fs.receipt == Some(Receipt(
           manifest.release, manifest.archive, manifest.candidate, manifest.version, original))
    }

    /** What the run finds: whether packages had to be installed, and what version the binary reports. */
    ghost function PackagesInstalled(begin: nat): bool {
      l.events(begin + PreparationMoments() - 2).residue
    }

    ghost function ProbedVersion(begin: nat): Option<string> {
      l.events(begin + PreparationMoments() - 1).version
    }

    /** Nothing to do: the receipt found names exactly this release, archive and version, the binary found is the one it
        names and reports that version, the backup it names verifies, and no package was missing. */
    ghost predicate UpToDate(begin: nat) {
      && original.Some? && originalReceipt.Some?
      && originalReceipt == Some(Receipt(
           manifest.release, manifest.archive, original.value, manifest.version, originalReceipt.value.backup))
      && (originalReceipt.value.backup.Some? ==>
            (originalReceipt.value.backup.value, originalReceipt.value.backup.value) in originalBackups.Items)
      && ProbedVersion(begin) == Some(manifest.version) && !PackagesInstalled(begin)
    }

    /** The files are what they were. */
    ghost predicate AsFound()
      reads this, fs
    {
      fs.target == original && fs.receipt == originalReceipt && fs.backups == originalBackups
    }

    /** The original binary, with its receipt unless a rollback has cleared it. */
    ghost predicate Original()
      reads this, fs
    {
      fs.target == original && fs.receipt == if rollbackAttempted then None else originalReceipt
    }

    /** What every run should end in. */
    ghost predicate Settled()
      reads this, fs
    {
      Original() || Installed()
    }

    /** What ordinary steps raise: failures that claim nothing, and terminations that leave the phase closed. */
    ghost predicate Escaped(raised: Raised)
      reads this, l
    {
      && ExitCode(raised) != UNPROVEN
      && (raised.Termination? ==>
            raised.prior.None? && !raised.recoveryVerified && l.phase.Terminating? && l.requested.Some?)
    }

    /** A part of the run that began without a pending request: it takes so many moments, and only a signal or a
        failure in one of them stops it. */
    ghost predicate Takes(start: nat, moments: nat, raised: Option<Raised>)
      reads l
    {
      && start <= l.clock <= start + moments
      && (if raised.None? then l.clock == start + moments else !Calm(l.events, start, l.clock))
    }

    /** Handlers are in place and no signal has come yet. */
    ghost predicate Undisturbed()
      reads l
    {
      l.Listening() && l.Now() == State(Active, None, false)
    }

    // ---- Preparation ----

    function PreparationMoments(): nat {
      if ownedLifecycle then 4 else 3
    }

    /** Checks and handlers. A signal that arrives while these are taken over is noted. */
    method Begin() returns (raised: Option<Raised>)
      requires Ready()
      modifies l
      ensures Untouched() && !l.recovering && l.Listening() && old(l.clock) <= l.clock
      ensures raised.Some? ==> Escaped(raised.value)
      ensures raised.None? ==> l.phase.Active?
      ensures raised.None? ==> l.clock == old(l.clock) + PreparationMoments() - 2
      ensures raised.Some? && old(l.requested).None? ==>
                l.clock <= old(l.clock) + PreparationMoments() && !Calm(l.events, old(l.clock), l.clock)
      ensures old(l.requested).None? && l.requested.Some? ==> !Calm(l.events, old(l.clock), l.clock)
    {
      var event;
      raised, event := l.Try();
      if raised.Some? {
        return;
      }
      if ownedLifecycle {
        raised := l.Install();
        assert raised.None? ==> Heard(l.events, l.heardFrom, l.heardFrom + 1) == l.events(l.heardFrom).signal;
      }
    }

    /** Packages and inspection. */
    method Inspect() returns (raised: Option<Raised>)
      requires Untouched() && l.phase.Active? && !l.recovering && l.Listening()
      modifies this`existing, this`packagesInstalled, l`clock, l`phase, l`requested
      ensures Untouched() && !l.recovering && l.Listening() && old(l.clock) <= l.clock
      ensures raised.Some? ==> Escaped(raised.value)
      ensures raised.None? ==> Undisturbed() && existing.None? == original.None?
      ensures raised.None? && original.Some? ==> existing.value.digest == original.value
      ensures raised.None? ==>
                && l.clock == old(l.clock) + 2 && packagesInstalled == l.events(old(l.clock)).residue
                && (existing.Some? ==> existing.value.version == l.events(old(l.clock) + 1).version)
      ensures old(l.requested).None? ==> Takes(old(l.clock), 2, raised)
      ensures l.clock <= old(l.clock) + 2
    {
      var event;
      raised, event := l.RunChild();
      if raised.Some? {
        return;
      }
      packagesInstalled := event.residue;
      raised, event := l.RunChild();
      if raised.Some? {
        return;
      }
      existing := if fs.target.None? then None else Some(Binary(fs.target.value, event.version));
    }

    /** Checks, handlers, packages and inspection; nothing owned is changed. */
    method Prepare() returns (raised: Option<Raised>)
      requires Ready()
      modifies this`existing, this`packagesInstalled, l
      ensures Untouched() && !l.recovering && l.Listening() && old(l.clock) <= l.clock
      ensures raised.Some? ==> Escaped(raised.value)
      ensures raised.None? ==> Undisturbed() && existing.None? == original.None?
      ensures raised.None? && original.Some? ==> existing.value.digest == original.value
      ensures old(l.requested).None? ==> Takes(old(l.clock), PreparationMoments(), raised)
      ensures raised.None? ==>
                && packagesInstalled == PackagesInstalled(old(l.clock))
                && (existing.Some? ==> existing.value.version == ProbedVersion(old(l.clock)))
    {
      raised := Begin();
      if raised.None? {
        raised := Inspect();
      }
    }

    /** The receipt already describes exactly this release and binary. */
    predicate AlreadyInstalled()
      reads this, fs
    {
      && !packagesInstalled && fs.receipt.Some? && existing.Some?
      && fs.receipt.value.release == manifest.release && fs.receipt.value.archive == manifest.archive
      && fs.receipt.value.installed == existing.value.digest
      && existing.value.version == Some(manifest.version) && fs.receipt.value.version == manifest.version
      && (fs.receipt.value.backup.Some? ==>
            fs.receipt.value.backup.value in fs.backups
            && fs.backups[fs.receipt.value.backup.value] == fs.receipt.value.backup.value)
    }

    /** Download, extract and probe the candidate in a staging directory. */
    method Stage() returns (raised: Option<Raised>)
      requires Untouched() && Undisturbed()
      modifies fs`staging, this`candidateChecked, l`clock, l`phase, l`requested
      ensures Untouched() && !l.recovering && l.Listening()
      ensures raised.Some? ==> Escaped(raised.value)
      ensures raised.None? ==> Undisturbed() && candidateChecked
      ensures Takes(old(l.clock), 3, raised)
    {
      var event;
      raised, event := l.Try();
      if raised.Some? {
        return;
      }
      fs.staging := true;
      raised, event := l.Try();
      if raised.Some? {
        return;
      }
      raised, event := l.RunChild();
      candidateChecked := raised.None?;
    }

    /** `create_or_reuse_backup`: an existing backup is reused only if it verifies; a failed copy may leave residue. */
    method CreateBackup(h: Digest) returns (raised: Option<Raised>)
      requires Untouched() && original == Some(h) && Undisturbed() && BackupsAsFound() && OthersKept()
      modifies fs`backups, this`backup, l`clock, l`phase, l`requested
      ensures Untouched() && !l.recovering && l.Listening()
      ensures raised.Some? ==> Escaped(raised.value)
      ensures raised.None? ==> Undisturbed() && backup == Some(h) && fs.Backed(h) && !damaged
      ensures OthersKept()
      ensures old(l.clock) <= l.clock && (raised.Some? && Calm(l.events, old(l.clock), l.clock) ==> damaged)
    {
      var event;
      raised, event := l.Try();
      if raised.Some? {
        return;
      }
      if h in fs.backups {
        if fs.backups[h] != h {
          return Some(ApplyError(1));
        }
      } else {
        raised, event := l.Try();
        if raised.Some? {
          if event.residue {
            fs.backups := fs.backups[h := ""];
          }
          return;
        }
        fs.backups := fs.backups[h := h];
        raised, event := l.Try();
        if raised.Some? {
          return;
        }
      }
      backup := Some(h);
    }

    // ---- Replacement and rollback ----

    /** `_install_candidate`: copy beside the target and verify; rename over it; verify and flush. What stops the first
        part leaves the target alone, what stops the second leaves the new content. */
    method InstallContent(content: Digest) returns (raised: Option<Raised>)
      requires (original.Some? ==> fs.Backed(original.value)) && l.Listening()
      modifies fs`target, l`clock, l`phase, l`requested
      ensures l.Listening() && SteppedFrom(old(l.Now()), l.Now(), raised)
      ensures var first := Tried(old(l.Now()), l.events(old(l.clock)));
              if first.1.Some? then
                fs.target == old(fs.target) && l.clock == old(l.clock) + 1 && (l.Now(), raised) == first
              else
                && fs.target == Some(content) && l.clock == old(l.clock) + 2
                && (l.Now(), raised) == Tried(first.0, l.events(old(l.clock) + 1))
    {
      var event;
      raised, event := l.Try();
      if raised.Some? {
        return;
      }
      fs.target := Some(content);
      raised, event := l.Try();
    }

    /** `_rollback`: remove a first installation, or reinstall the verified backup and probe it. */
    method RollBack() returns (raised: Option<Raised>)
      requires Replacing() && Guarded() && l.phase.Recovery? && l.recovering && l.Listening()
      modifies fs`target, l`clock, l`phase, l`requested
      ensures Replacing() && Guarded() && l.phase.Recovery? && l.recovering && l.Listening()
      ensures raised.None? ==> fs.target == original
      ensures old(l.clock) < l.clock && (old(l.requested).Some? ==> l.requested.Some?)
      ensures l.events(old(l.clock)).failure.Some? ==>
                raised.Some? && l.clock == old(l.clock) + 1 && fs.target == old(fs.target)
    {
      var event;
      raised, event := l.Try();
      if raised.Some? {
        return;
      }
      if existing.None? {
        fs.target := None;
        raised, event := l.Try();
        return;
      }
      var h := existing.value.digest;
      if backup != Some(h) || h !in fs.backups || fs.backups[h] != h {
        return Some(RollbackError);
      }
      raised := InstallContent(h);
      if raised.Some? {
        return;
      }
      raised, event := l.RunChild();
    }

    /** `_rollback` and `_remove_receipt` as the handlers run them: any failure is a rollback error. The phase handed
        back is closed only if a signal has been heard by then. */
    method Recover() returns (raised: Option<Raised>)
      requires Replacing() && Guarded() && l.Listening() && !l.phase.Inactive?
      modifies fs`target, fs`receipt, this`rollbackAttempted, this`rollbackVerified, this`unproven, this`recoveredAt,
               l`clock, l`phase, l`requested, l`recovering
      ensures Replacing() && Guarded() && l.Listening() && l.Now() == RecoveryEnded(l.Now())
      ensures raised == None || raised == Some(RollbackError)
      ensures unproven == raised.Some? && recoveredAt == l.clock && old(l.clock) < l.clock
      ensures !unproven ==> Original()
      ensures old(l.requested).Some? ==> l.requested.Some?
      ensures l.events(old(l.clock)).failure.Some? ==>
                unproven && l.clock == old(l.clock) + 1 && fs.target == old(fs.target) && fs.receipt == old(fs.receipt)
    {
      rollbackAttempted, unproven := true, true;
      l.BeginRecovery();
      raised := RollBack();
      if raised.None? {
        rollbackVerified := true;
        var event;
        raised, event := l.Try();
        if raised.None? {
          fs.receipt := None;
          raised, event := l.Try();
        }
      }
      if raised.Some? {
        raised := Some(RollbackError);
      } else {
        unproven := false;
      }
      recoveredAt := l.clock;
      l.EndRecovery();
    }

    /** Install the candidate, probe it and verify it. */
    method InstallAndProbe() returns (raised: Option<Raised>)
      requires Replacing() && Guarded() && Undisturbed()
      modifies fs`target, l`clock, l`phase, l`requested
      ensures Replacing() && Guarded() && !l.recovering && l.Listening() && !l.phase.Inactive?
      ensures raised.None? ==> Undisturbed() && fs.target == Some(manifest.candidate)
      ensures raised.Some? ==> Escaped(raised.value) && (raised.value.Termination? || Undisturbed())
      ensures Takes(old(l.clock), 4, raised)
      ensures FailsSecond(old(l.clock)) ==>
                && raised == Failure(l.events(old(l.clock) + 1)) && l.clock == old(l.clock) + 2
                && fs.target == Some(manifest.candidate)
    {
      raised := InstallContent(manifest.candidate);
      if raised.Some? {
        return;
      }
      var event;
      raised, event := l.RunChild();
      if raised.Some? {
        return;
      }
      raised, event := l.Try();
    }

    /** Publish the receipt; from then on the installation counts as verified. */
    method Publish() returns (raised: Option<Raised>)
      requires Undisturbed() && fs.target == Some(manifest.candidate) && !postInstallVerified && Replacing()
      modifies fs`receipt, this`postInstallVerified, l`clock, l`phase, l`requested
      ensures !l.recovering && l.Listening() && !l.phase.Inactive?
      ensures postInstallVerified ==> Installed()
      ensures raised.None? ==> postInstallVerified && Undisturbed()
      ensures raised.Some? ==>
                Escaped(raised.value) && (raised.value.Termination? || (!postInstallVerified && Undisturbed()))
      ensures Takes(old(l.clock), 2, raised)
    {
      var previous := if existing.Some? then Some(existing.value.digest) else None;
      fs.receipt := Some(Receipt(manifest.release, manifest.archive, manifest.candidate, manifest.version, previous));
      var event;
      raised, event := l.Try();
      if raised.Some? {
        return;
      }
      postInstallVerified := true;
      raised := l.Window();
    }

    /** The guarded part: install, probe, verify, publish the receipt. */
    method Replace() returns (raised: Option<Raised>)
      requires Replacing() && Guarded() && Original() && Undisturbed() && !rollbackAttempted && !postInstallVerified
      modifies fs`target, fs`receipt, this`postInstallVerified, l`clock, l`phase, l`requested
      ensures Replacing() && Guarded() && !l.recovering && l.Listening() && !l.phase.Inactive?
      ensures postInstallVerified ==> Installed()
      ensures raised.None? ==> postInstallVerified && Undisturbed()
      ensures raised.Some? ==>
                Escaped(raised.value) && (raised.value.Termination? || (!postInstallVerified && Undisturbed()))
      ensures Takes(old(l.clock), 6, raised)
      ensures FailsSecond(old(l.clock)) ==>
                && raised == Failure(l.events(old(l.clock) + 1)) && l.clock == old(l.clock) + 2 && !postInstallVerified
                && fs.target == Some(manifest.candidate) && fs.receipt == originalReceipt
    {
      raised := InstallAndProbe();
      if raised.None? {
        raised := Publish();
      }
    }

    // ---- The transaction and its handlers ----

    /** A rollback that could not be proven is being reported. While no signal has come since it ended, or when one had
        come before, it is reported as such; otherwise the first signal since has taken its place. */
    ghost predicate Reporting(raised: Raised)
      reads this, l
    {
      && l.heardFrom <= recoveredAt <= l.clock
      && var before, since := Heard(l.events, l.heardFrom, recoveredAt), Heard(l.events, recoveredAt, l.clock);
      if before.Some? || since.None? then
        && (raised == RollbackError || raised == ApplyError(UNPROVEN))
        && l.phase == (if before.Some? then Terminating else Active)
      else raised == Termination(since.value, None, false) && l.phase.Terminating?
    }

    /** What is known while an error, or none, is on its way out. */
    ghost predicate Pending(raised: Option<Raised>)
      reads this, fs, l
    {
      && (!unproven ==> Settled() && (raised.Some? ==> ExitCode(raised.value) != UNPROVEN))
      && (unproven ==> raised.Some? && Reporting(raised.value))
      && (raised.None? ==> if replacementStarted then Installed() else noop && Original())
    }

    /** A termination the outer handler still has to look at. */
    ghost predicate Unhandled(raised: Raised)
      reads this
    {
      raised.Termination? && !raised.recoveryVerified && replacementStarted && !postInstallVerified
    }

    /** What leaves the body: settled or reported, or a termination after which the replacement can still be undone. */
    ghost predicate Raisable(raised: Raised)
      reads this, fs, l
    {
      if Unhandled(raised) then Replacing() && raised.prior.None? && l.phase.Terminating? && l.requested.Some?
      else Pending(Some(raised)) && (unproven ==> !raised.Termination?)
    }

    /** The second of two moments fails. */
    ghost predicate FailsSecond(at: nat) {
      Calm(l.events, at, at + 1) && l.events(at + 1).signal.None? && l.events(at + 1).failure.Some?
    }

    /** The second of three silent moments fails. */
    ghost predicate FailsUndoing(at: nat) {
      Silent(l.events, at, at + 3) && l.events(at + 1).failure.Some?
    }

    /** When a calm run on a router without the binary begins to replace it. */
    ghost function ReplacementBegins(): nat
      reads l
    {
      l.clock + PreparationMoments() + 3
    }

    /** A first installation fails right after the rename, and so does undoing it. */
    ghost predicate FirstInstallationFails()
      reads this, l
    {
      && original.None? && originalReceipt.None? && l.requested.None?
      && Calm(l.events, l.clock, ReplacementBegins())
      && FailsSecond(ReplacementBegins()) && FailsUndoing(ReplacementBegins() + 2)
    }

    /** A failed replacement: undo it, then report the original failure, unless the undoing failed. */
    method FailedReplacement(failure: Raised) returns (raised: Raised)
      requires Replacing() && Guarded() && Undisturbed() && !postInstallVerified && !unproven
      requires !failure.Termination? && ExitCode(failure) != UNPROVEN
      modifies fs`target, fs`receipt, this`rollbackAttempted, this`rollbackVerified, this`unproven, this`recoveredAt,
               l`clock, l`phase, l`requested, l`recovering
      ensures Guarded() && l.Listening() && Raisable(raised) && old(l.clock) <= l.clock
      ensures unproven && !raised.Termination? ==> l.clock == recoveredAt + 1
      ensures FailsUndoing(old(l.clock)) ==>
                && unproven && raised == RollbackError && recoveredAt == old(l.clock) + 2 && l.clock == old(l.clock) + 3
                && fs.target == old(fs.target) && fs.receipt == old(fs.receipt)
    {
      var interrupted := l.Window();
      if interrupted.Some? {
        return interrupted.value;
      }
      var recovery := Recover();
      interrupted := l.Window();
      if interrupted.Some? {
        return interrupted.value;
      }
      if recovery.Some? {
        return recovery.value;
      }
      match failure {
        case ApplyError(_) => raised := failure;
        case Interrupt => raised := Termination(2, None, true);
        case _ => raised := ApplyError(1);
      }
    }

    /** Everything before the replacement: done if nothing is left to do, else ready to replace. */
    method Approach() returns (raised: Option<Raised>, done: bool)
      requires Ready()
      modifies this`existing, this`packagesInstalled, this`candidateChecked, this`backup, this`postInstallVerified,
               this`noop, fs`staging, fs`backups, l
      ensures Untouched() && Guarded() && l.Listening() && old(l.clock) <= l.clock
      ensures raised.Some? ==> Escaped(raised.value)
      ensures raised.None? ==> Undisturbed()
      ensures raised.None? ==> (done <==> UpToDate(old(l.clock))) && (done || !damaged)
      ensures OthersKept()
      ensures raised.None? && done ==> noop && AsFound()
      ensures raised.None? && !done ==>
                && !postInstallVerified && candidateChecked && (existing.None? <==> original.None?)
                && (original.Some? ==>
                      existing.value.digest == original.value && backup == original && fs.Backed(original.value))
      ensures old(l.requested).None? && raised.Some? && Calm(l.events, old(l.clock), l.clock) ==>
                damaged && !UpToDate(old(l.clock))
      ensures original.None? && originalReceipt.None? && old(l.requested).None? ==>
                Takes(old(l.clock), PreparationMoments() + 3, raised) && !done
    {
      done := false;
      raised := Prepare();
      if raised.Some? {
        return;
      }
      if AlreadyInstalled() {
        postInstallVerified, noop := true, true;
        return None, true;
      }
      raised := Stage();
      if raised.Some? {
        return;
      }
      if existing.Some? {
        raised := CreateBackup(existing.value.digest);
      }
    }

    /** The replacement with its own handler. */
    method ReplaceOrUndo() returns (raised: Option<Raised>)
      requires Replacing() && Guarded() && Original() && Undisturbed() && !rollbackAttempted && !postInstallVerified
      requires !unproven
      modifies this`postInstallVerified, this`rollbackAttempted, this`rollbackVerified, this`unproven, this`recoveredAt,
               fs`target, fs`receipt, l`clock, l`phase, l`requested, l`recovering
      ensures Guarded() && l.Listening() && old(l.clock) <= l.clock
      ensures if raised.None? then Installed() && Replacing() && Undisturbed() && !unproven else Raisable(raised.value)
      ensures raised.Some? ==> !Calm(l.events, old(l.clock), l.clock)
      ensures raised.Some? && !Unhandled(raised.value) && unproven ==> l.clock == recoveredAt + 1
      ensures FailsSecond(old(l.clock)) && FailsUndoing(old(l.clock) + 2) ==>
                && raised == Some(RollbackError) && unproven && recoveredAt == old(l.clock) + 4
                && fs.target == Some(manifest.candidate) && fs.receipt == originalReceipt
    {
      raised := Replace();
      if raised.Some? && !raised.value.Termination? {
        var failed := FailedReplacement(raised.value);
        raised := Some(failed);
      }
    }

    /** A run that succeeds has done nothing if there was nothing to do, and installed otherwise. */
    ghost predicate Done(begin: nat)
      reads this, fs
    {
      if UpToDate(begin) then noop && !replacementStarted && AsFound()
      else
        && replacementStarted && candidateChecked && Installed() && !damaged
        && (original.Some? ==> fs.Backed(original.value))
    }

    /** The body of the transaction up to its outer handlers. */
    method Body() returns (raised: Option<Raised>)
      requires Ready()
      modifies this`existing, this`packagesInstalled, this`candidateChecked, this`backup, this`replacementStarted,
               this`postInstallVerified, this`noop, this`rollbackAttempted, this`rollbackVerified, this`unproven,
               this`recoveredAt, fs, l
      ensures Guarded() && l.Listening() && old(l.clock) <= l.clock
      ensures if raised.None? then Pending(raised) else Raisable(raised.value)
      ensures raised.None? ==> Undisturbed() && Done(old(l.clock))
      ensures OthersKept()
      ensures old(l.requested).None? && Calm(l.events, old(l.clock), l.clock) ==>
                (raised.None? <==> UpToDate(old(l.clock)) || !damaged)
      ensures raised.Some? && !Unhandled(raised.value) && unproven ==> l.clock == recoveredAt + 1
      ensures old(FirstInstallationFails()) ==>
                && raised == Some(RollbackError) && unproven && recoveredAt == old(ReplacementBegins()) + 4
                && fs.target == Some(manifest.candidate) && fs.receipt.None?
    {
      var done;
      raised, done := Approach();
      if raised.Some? || done {
        return;
      }
      replacementStarted := true;
      raised := ReplaceOrUndo();
    }

    /** A moment in which an error is being reported: a signal in an active phase replaces it. */
    method Report(pending: Option<Raised>) returns (raised: Option<Raised>)
      requires l.Listening() && Pending(pending)
      modifies l`clock, l`phase, l`requested
      ensures l.Listening() && Pending(raised) && l.clock == old(l.clock) + 1
      ensures var moment := Windowed(old(l.Now()), l.events(old(l.clock)));
              l.Now() == moment.0 && raised == if moment.1.Some? then moment.1 else pending
    {
      var interrupted := l.Window();
      raised := if interrupted.Some? then interrupted else pending;
    }

    /** The outer handlers: an error may be told of packages left behind, a termination may have to be
        recovered from. */
    method HandleEscaped(escaped: Raised) returns (raised: Option<Raised>)
      requires Guarded() && l.Listening() && Raisable(escaped)
      requires !Unhandled(escaped) && unproven ==> l.clock == recoveredAt + 1
      modifies fs`target, fs`receipt, this`rollbackAttempted, this`rollbackVerified, this`unproven, this`recoveredAt,
               l`clock, l`phase, l`requested, l`recovering
      ensures Guarded() && l.Listening() && old(l.clock) <= l.clock && raised.Some? && Pending(raised)
      ensures unproven ==> l.clock <= recoveredAt + 2
      ensures escaped == RollbackError ==>
                && unproven == old(unproven) && recoveredAt == old(recoveredAt) && l.clock == old(l.clock) + 1
                && fs.target == old(fs.target) && fs.receipt == old(fs.receipt)
    {
      raised := Some(escaped);
      match escaped {
        case ApplyError(code) =>
          raised := Report(if packagesInstalled then Some(ApplyError(code)) else raised);
        case RollbackError =>
          raised := Report(if packagesInstalled then Some(ApplyError(UNPROVEN)) else raised);
        case Termination(signum, prior, verified) =>
          if replacementStarted && !postInstallVerified && !verified {
            var recovery := Recover();
            raised := if recovery.Some? then recovery else Some(Termination(signum, prior, true));
          }
          raised := Report(raised);
        case _ =>
      }
    }

    /** `_execute_bootstrap_transaction`: the body inside its outer handlers. */
    method Execute() returns (raised: Option<Raised>)
      requires Ready()
      modifies this`existing, this`packagesInstalled, this`candidateChecked, this`backup, this`replacementStarted,
               this`postInstallVerified, this`noop, this`rollbackAttempted, this`rollbackVerified, this`unproven,
               this`recoveredAt, fs, l
      ensures Guarded() && l.Listening() && old(l.clock) <= l.clock && Pending(raised)
      ensures unproven ==> l.clock <= recoveredAt + 3
      ensures raised.None? ==> Undisturbed() && Done(old(l.clock))
      ensures OthersKept()
      ensures old(FirstInstallationFails()) ==>
                && unproven && recoveredAt == old(ReplacementBegins()) + 4 && l.clock == recoveredAt + 3
                && fs.target == Some(manifest.candidate) && fs.receipt.None?
      ensures old(l.requested).None? && Calm(l.events, old(l.clock), l.clock) ==>
                (raised.None? <==> UpToDate(old(l.clock)) || !damaged)
    {
      raised := Body();
      if raised.Some? {
        raised := HandleEscaped(raised.value);
      }
      raised := Report(raised);
    }

    /** `_cleanup_staging` with signals only noted; then the handlers are given back. */
    method CleanUp() returns (failed: Option<Raised>)
      modifies fs`staging, l`clock, l`phase, l`requested, l`recovering
      ensures failed == None || failed == Some(ApplyError(1))
      ensures failed.None? ==> !fs.staging
      ensures old(l.clock) <= l.clock <= old(l.clock) + 2
      ensures l.requested.None? ==> old(l.requested).None?
      ensures !old(l.phase).Inactive? && old(l.Listening()) ==> l.requested == Heard(l.events, l.heardFrom, l.clock)
      ensures Calm(l.events, old(l.clock), l.clock) ==> failed.None? && l.requested == old(l.requested)
    {
      failed := None;
      l.BeginCleanup();
      var raised, event := l.Try();
      if fs.staging && raised.Some? {
        failed := Some(ApplyError(1));
      } else {
        fs.staging := false;
      }
      if ownedLifecycle {
        raised := l.Restore();
        if raised.Some? {
          failed := Some(ApplyError(1));
        }
      }
    }

    /** `apply_bootstrap_transaction`: whatever steps fail and whenever signals arrive, the files end as they were, or
        without a receipt after a rollback, or with the validated candidate and its receipt, unless a rollback could
        not be proven. Exit code 3 means just that; and an unproven rollback is reported by it exactly when a signal
        had come before the last recovery ended, or none came from then until cleanup began, a stretch of at most four
        moments. Otherwise the first such signal is reported, or a failed cleanup. Success means that no signal came
        from taking the handlers over until they were given back, and that the files are as they were if there was
        nothing to do and the candidate with its receipt otherwise. A calm run succeeds exactly if there is nothing to
        do or the backup it needs is undamaged. */
    method Apply() returns (raised: Option<Raised>, ghost closedAt: nat)
      requires Ready() && !fs.staging
      modifies this, fs, l
      ensures Guarded() && OthersKept()
      ensures !unproven ==> Settled()
      ensures raised.None? ==> !unproven && !fs.staging && l.requested.None? && Silent(l.events, l.heardFrom, l.clock)
      ensures raised.None? ==> Done(old(l.clock))
      ensures raised.Some? && ExitCode(raised.value) == UNPROVEN ==> unproven
      ensures unproven ==> raised.Some? && l.heardFrom <= recoveredAt <= closedAt <= recoveredAt + 4
      ensures unproven ==>
                (ExitCode(raised.value) == UNPROVEN <==>
                   !Silent(l.events, l.heardFrom, recoveredAt) || Silent(l.events, recoveredAt, closedAt))
      ensures unproven && ExitCode(raised.value) != UNPROVEN ==>
                && Heard(l.events, recoveredAt, closedAt).Some?
                && (raised.value == Termination(Heard(l.events, recoveredAt, closedAt).value, None, false)
                    || (raised.value == ApplyError(1) && !Calm(l.events, closedAt, l.clock)))
      ensures old(l.requested).None? && Calm(l.events, old(l.clock), l.clock) ==>
                (raised.None? <==> UpToDate(old(l.clock)) || !damaged)
      ensures old(FirstInstallationFails()) ==>
                && unproven && recoveredAt == old(ReplacementBegins()) + 4 && closedAt == recoveredAt + 4
                && l.clock <= closedAt + 2 && fs.target == Some(manifest.candidate) && fs.receipt.None?
    {
      raised := Execute();
      var escaped := Report(raised);
      closedAt := l.clock;
      if unproven {
        SilenceIsUnheard(l.events, l.heardFrom, recoveredAt);
        SilenceIsUnheard(l.events, recoveredAt, closedAt);
      }
      if escaped != raised {
        return escaped, closedAt;
      }
      var failed := CleanUp();
      SilenceIsUnheard(l.events, l.heardFrom, l.clock);
      if raised.None? && l.requested.Some? {
        raised := Some(Termination(l.requested.value, None, false));
      }
      if failed.Some? {
        raised := Some(CombineFinalization(raised, failed.value));
      }
    }
  }

  /** `_combine_finalization_error`: a pending failure keeps its exit code; a mere termination gives way. */
  function CombineFinalization(pending: Option<Raised>, finalization: Raised): Raised {
    match pending
    case Some(RollbackError) => RollbackError
    case Some(ApplyError(code)) => ApplyError(code)
    case Some(Termination(_, _, _)) => finalization
    case Some(other) => other
    case None => finalization
  }

  // ---- A run that hides an unproven rollback ----

  const CALM := Event(None, None, false, None, None)
  const FAILING := Event(None, Some(OtherError), false, None, None)
  const TERMINATED := Event(Some(15), None, false, None, None)

  /** The step after the rename fails, the removal of the new file fails, and SIGTERM arrives while that is reported. */
  function LateTermination(i: nat): Event {
    if i == 8 || i == 10 then FAILING else if i == 12 then TERMINATED else CALM
  }

  lemma {:induction false} LateTerminationFits()
    ensures Calm(LateTermination, 0, 8) && FAILING == LateTermination(8) && Silent(LateTermination, 0, 12)
    ensures FAILING == LateTermination(10) && !Silent(LateTermination, 11, 15) && Calm(LateTermination, 13, 100)
    ensures Heard(LateTermination, 11, 15) == Some(15)
  {
    assert LateTermination(12) == TERMINATED;
    SilenceIsUnheard(LateTermination, 11, 12);
    assert Heard(LateTermination, 11, 13) == Some(15) && Heard(LateTermination, 11, 14) == Some(15);
  }

  /** An instance: a first installation in which the process ends with 143 although the rollback is unproven, an
      unvalidated candidate is left in place, and no receipt tells of it. */
  method MaskedRun(manifest: Manifest) returns (fs: FileSystem, exitCode: int, ghost unproven: bool)
    ensures fresh(fs) && exitCode == 143 && unproven
    ensures fs.target == Some(manifest.candidate) && fs.receipt.None?
  {
    fs := new FileSystem(None, map[], None);
    var l := new Lifecycle(LateTermination);
    var t := new Transaction(fs, l, manifest, true);
    LateTerminationFits();
    assert t.FirstInstallationFails();
    var raised;
    ghost var closedAt;
    raised, closedAt := t.Apply();
    unproven := t.unproven;
    assert t.recoveredAt == 11 && closedAt == 15;
    assert Silent(l.events, l.heardFrom, 11) && !Silent(l.events, 11, 15);
    exitCode := ExitCode(raised.value);
  }
}
