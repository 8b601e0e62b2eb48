/** The store's atomic writes on a restore run and its request (internal/server/store/sqlite.go), and
    the server's reading of an agent result (internal/server/agentreg/service.go). */
module RestoreStore {
  import opened RestorePhases

  datatype Order = Order(agent: nat, repo: nat, target: nat, chosen: Content)

  /** The run row and its restore request. */
  datatype Row = Row(order: Order, status: Status, code: ErrorCode, phase: Phase)

  /** updateRestoreRequestTx: a confirmed phase is never overwritten. */
  function Settle(current: Phase, phase: Phase): Phase {
    if current.PhaseManualRecoveryDone? then current
    else if ReleasesOccupancy(current) && current != phase then current
    else if NeedsManualResolution(current) then current
    else phase
  }

  /** FinishRestoreRun; a source status outside `froms` is ErrInvalidTransition and changes nothing. */
  function FinishRestoreRun(row: Row, froms: set<Status>, to: Status, code: ErrorCode, phase: Phase): Row {
    if IsTerminal(row.status) then row.(phase := Settle(row.phase, phase))
    else if row.status in froms then row.(status := to, code := code, phase := Settle(row.phase, phase))
    else row
  }

  const Unfinished: set<Status> := {Queued, Dispatched, Running}

  /** TransitionRun, ignoring an ErrInvalidTransition. */
  function TransitionRun(row: Row, from: Status, to: Status, code: ErrorCode): Row {
    if row.status == from && ValidTransition(from, to) then row.(status := to, code := code) else row
  }

  /** UpdateRestorePhase and the phase part of RequestRestoreStop. */
  function UpdateRestorePhase(row: Row, phase: Phase): Row {
    if IsTerminalPhase(row.phase) then row else row.(phase := phase)
  }

  /** ResolveRestoreRequest; None is ErrRestoreConflict. */
  function ResolveRestoreRequest(row: Row): Option<Row> {
    if !NeedsManualResolution(row.phase) then None
    else if IsTerminal(row.status) then Some(row.(phase := PhaseManualRecoveryDone))
    else Some(row.(phase := PhaseManualRecoveryDone, status := Failed,
                   code := if row.phase.PhaseRollbackFailed? then RollbackFailedCode else OtherCode))
  }

  // ----- results -------------------------------------------------------------------------

  /** A RunResult as the agent sends it; `phase` is what its JSON payload reports, if anything. */
  datatype Report = Report(status: Status, code: ErrorCode, phase: Option<Phase>)

  predicate Reportable(p: Phase) {
    IsTerminalPhase(p) && !p.PhaseManualRecoveryDone?
  }

  /** restoreResultOutcome. */
  function ResultOutcome(r: Report): (o: (Phase, ErrorCode))
    ensures IsTerminalPhase(o.0) && o.0 != PhaseManualRecoveryDone
  {
    if r.phase.Some? && Reportable(r.phase.value) then (r.phase.value, r.code)
    else if r.status.Failed? || r.status.Cancelled? then
      (PhaseManualRecoveryNeeded, if r.code.NoError? then RollbackFailedCode else r.code)
    else (PhaseSucceeded, r.code)
  }

  /** The restore branch of handleRunResult. */
  function DeliverResult(row: Row, r: Report): Row {
    var (phase, code) := ResultOutcome(r);
    if phase.PhaseRollbackFailed? then FinishRestoreRun(row, Unfinished, Failed, RollbackFailedCode, phase)
    else FinishRestoreRun(row, Unfinished, r.status, code, phase)
  }

  /** A reported rollback failure never releases the occupancy by itself, and it makes the run FAILED
      with code rollback_failed exactly when the run had not ended before (or had already ended that
      way): a run that a restart or an expired grace ended keeps the code it was given then. */
  lemma FailedRollbackOutcome(row: Row, r: Report)
    requires r.phase == Some(PhaseRollbackFailed)
    ensures var after := DeliverResult(row, r);
            && (ReleasesOccupancy(after.phase) <==> ReleasesOccupancy(row.phase))
            && (after.status == Failed && after.code == RollbackFailedCode <==>
                  !IsTerminal(row.status) || (row.status == Failed && row.code == RollbackFailedCode))
  {
  }

  /** The same rollback failure reported after a server restart: the run keeps agent_disconnected. */
  lemma LateRollbackFailureKeepsCode(order: Order)
    ensures var row := Row(order, Running, NoError, PhaseRollingBack);
            var restarted := FinishRestoreRun(TransitionRun(row, Running, Failed, AgentDisconnected),
                                              Unfinished, Failed, AgentDisconnected, PhaseManualRecoveryNeeded);
            var after := DeliverResult(restarted, Report(Failed, RollbackFailedCode, Some(PhaseRollbackFailed)));
            after.code == AgentDisconnected && after.phase == PhaseManualRecoveryNeeded
  {
  }

  /** The writes a row can see, in any order and number. */
  datatype RowWrite =
    | Finish(froms: set<Status>, to: Status, code: ErrorCode, phase: Phase)
    | Transition(from: Status, to: Status, code: ErrorCode)
    | SetPhase(phase: Phase)
    | Deliver(report: Report)
    | Resolve

  function Write(row: Row, w: RowWrite): Row {
    match w
    case Finish(froms, to, code, phase) => FinishRestoreRun(row, froms, to, code, phase)
    case Transition(from, to, code) => TransitionRun(row, from, to, code)
    case SetPhase(phase) => UpdateRestorePhase(row, phase)
    case Deliver(report) => DeliverResult(row, report)
    case Resolve => ResolveRestoreRequest(row).GetOr(row)
  }

  function WriteAll(row: Row, ws: seq<RowWrite>): Row
    decreases |ws|
  {
    if ws == [] then row else WriteAll(Write(row, ws[0]), ws[1..])
  }

  /** A terminal status and a releasing phase survive every later write; a phase waiting for an operator
      changes only to the operator's own conclusion. */
  lemma {:induction false} ConclusionsArePermanent(row: Row, ws: seq<RowWrite>)
    ensures var after := WriteAll(row, ws);
            && (IsTerminal(row.status) ==> after.status == row.status && after.code == row.code)
            && (ReleasesOccupancy(row.phase) ==> after.phase == row.phase)
            && (NeedsManualResolution(row.phase) ==> after.phase == row.phase || (after.phase == PhaseManualRecoveryDone && Resolve in ws))
    decreases |ws|
  {
    if ws != [] {
      ConclusionsArePermanent(Write(row, ws[0]), ws[1..]);
      assert Resolve in ws[1..] ==> Resolve in ws;
    }
  }
}
