/** Run statuses, restore phases and the predicates that classify them (internal/model/model.go),
    together with the meaning a phase has for the target of a database restore. */
module RestorePhases {

  datatype Option<+T> = None | Some(value: T) {
    function GetOr(default: T): T {
      match this
      case Some(v) => v
      case None => default
    }
  }

  /** Stands for the complete logical content of one database. */
  type Content = nat

  datatype Status = Queued | Dispatched | Running | Succeeded | Failed | Cancelled

  datatype Phase =
    | PhaseQueued
    | PhaseRunning
    | PhasePreBackup
    | PhaseRestoring
    | PhaseRollingBack
    | PhaseCancelling
    | PhaseSucceeded
    | PhaseFailed
    | PhasePreBackupFailed
    | PhaseRolledBack
    | PhaseNewTargetCleaned
    | PhaseRollbackFailed
    | PhaseManualRecoveryNeeded
    | PhaseManualRecoveryDone

  datatype ErrorCode =
    | NoError
    | CodeCancelled
    | InvalidParams
    | InvalidPlan
    | PathNotAllowed
    | Internal
    | RestoreFailed
    | UnsupportedManifest
    | TargetExists
    | TargetBusy
    | PreflightFailed
    | PreflightOwn
    | PreRestoreBackupFailed
    | ImportFailed
    | VerificationFailed
    | RollbackFailedCode
    | AgentDisconnected
    | RunTimeout
    | CapabilitiesPending
    | UpgradeRequired
    | OtherCode

  predicate IsTerminal(s: Status) {
    s.Succeeded? || s.Failed? || s.Cancelled?
  }

  predicate IsActive(s: Status) {
    s.Dispatched? || s.Running?
  }

  /** The edges TransitionRun accepts. */
  predicate ValidTransition(from: Status, to: Status) {
    match from
    case Queued => to.Dispatched? || to.Failed? || to.Cancelled?
    case Dispatched => !to.Dispatched?
    case Running => to.Queued? || IsTerminal(to)
    case _ => false
  }

  predicate ReleasesOccupancy(p: Phase) {
    p.PhaseSucceeded? || p.PhaseFailed? || p.PhasePreBackupFailed? || p.PhaseRolledBack? ||
    p.PhaseNewTargetCleaned? || p.PhaseManualRecoveryDone?
  }

  predicate NeedsManualResolution(p: Phase) {
    p.PhaseManualRecoveryNeeded? || p.PhaseRollbackFailed?
  }

  predicate IsTerminalPhase(p: Phase) {
    ReleasesOccupancy(p) || NeedsManualResolution(p)
  }

  /** What a phase reported at the end of a restore claims about the target, which held `before`
      when the restore began and holds `after` now; `chosen` is the content of the snapshot.
      Phases that claim nothing hold of every pair. */
  predicate Truthful(p: Phase, before: Option<Content>, after: Option<Content>, chosen: Content) {
    match p
    case PhaseSucceeded => after == Some(chosen)
    case PhaseFailed => after == before
    case PhasePreBackupFailed => before.Some? && after == before
    case PhaseRolledBack => before.Some? && after == before
    case PhaseNewTargetCleaned => before.None? && after.None?
    case _ => true
  }
}
