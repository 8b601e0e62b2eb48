/** What the server does with runs whose agent or whose server went away: recoverStaleRuns at start-up
    (cmd/server/main.go) and handleDisconnect (internal/server/agentreg/service.go). */
module LostWork {
  import opened RestorePhases
  import opened RestoreStore

  datatype Operation =
    | OpBackup | OpRestore | OpRestoreDryRun | OpCheck | OpForget | OpSnapshots | OpSnapshotLs | OpVerifyRemote
    | OpValidatePaths | OpProbeCaps

  /** startupRetryable and both copies of retryableOperation. */
  predicate Retryable(op: Operation) {
    op.OpBackup? || op.OpCheck? || op.OpSnapshots? || op.OpSnapshotLs? || op.OpValidatePaths? || op.OpProbeCaps? || op.OpVerifyRemote?
  }

  /** The phase of the row matters for restores only. */
  datatype Run = Run(op: Operation, row: Row)

  /** One run at start-up; `w1` and `w2`: the write of the run, and of the restore request, succeeds. */
  function Restarted(u: Run, w1: bool, w2: bool): Run {
    if !IsActive(u.row.status) || !w1 then u
    else if Retryable(u.op) then u.(row := TransitionRun(u.row, u.row.status, Queued, NoError))
    else
      var failed := TransitionRun(u.row, u.row.status, Failed, AgentDisconnected);
      u.(row := if u.op.OpRestore? && w2 then FinishRestoreRun(failed, Unfinished, Failed, AgentDisconnected, PhaseManualRecoveryNeeded)
                else failed)
  }

  /** One run when the agent's stream ends. */
  function Disconnected(u: Run, agent: nat, written: bool): Run {
    if !IsActive(u.row.status) || u.row.order.agent != agent || !written then u
    else if u.op.OpRestore? then u.(row := UpdateRestorePhase(u.row, PhaseManualRecoveryNeeded))
    else u.(row := TransitionRun(u.row, u.row.status, if Retryable(u.op) then Queued else Failed,
                                 if Retryable(u.op) then NoError else AgentDisconnected))
  }

  /** A list of exactly the active runs, each once. */
  ghost predicate Lists(ids: seq<nat>, runs: map<nat, Run>) {
    && (forall i, j :: 0 <= i < j < |ids| ==> ids[i] != ids[j])
    && (forall r :: r in ids <==> r in runs && IsActive(runs[r].row.status))
  }

  class RunTable {
    var runs: map<nat, Run>

    constructor ()
      ensures runs == map[]
    {
      runs := map[];
    }

    /** The store's TransitionRun. */
    method Transition(r: nat, from: Status, to: Status, code: ErrorCode, written: bool) returns (ok: bool)
      requires r in runs
      modifies this
      ensures ok == (written && old(runs[r]).row.status == from && ValidTransition(from, to))
      ensures runs == if ok then old(runs)[r := old(runs[r]).(row := TransitionRun(old(runs[r]).row, from, to, code))] else old(runs)
    {
      ok := written && runs[r].row.status == from && ValidTransition(from, to);
      if ok {
        runs := runs[r := runs[r].(row := runs[r].row.(status := to, code := code))];
      }
    }

    /** Runs whose write fails are left for later. */
    method RecoverStaleRuns(stale: seq<nat>, unwritten: set<nat>, unfinished: set<nat>)
      requires Lists(stale, runs)
      modifies this
      ensures runs.Keys == old(runs).Keys
      ensures forall r :: r in runs ==> runs[r] == Restarted(old(runs)[r], r !in unwritten, r !in unfinished)
    {
      for i := 0 to |stale|
        invariant runs.Keys == old(runs).Keys
        invariant forall r :: r in stale[..i] ==> runs[r] == Restarted(old(runs)[r], r !in unwritten, r !in unfinished)
        invariant forall r :: r in runs && r !in stale[..i] ==> runs[r] == old(runs)[r]
      {
        var r := stale[i];
        assert r in stale && r !in stale[..i];
        var was := runs[r];
        if Retryable(was.op) {
          var _ := Transition(r, was.row.status, Queued, NoError, r !in unwritten);
          continue;
        }
        var ok := Transition(r, was.row.status, Failed, AgentDisconnected, r !in unwritten);
        if !ok {
          continue;
        }
        if was.op.OpRestore? && r !in unfinished {
          var row := FinishRestoreRun(runs[r].row, Unfinished, Failed, AgentDisconnected, PhaseManualRecoveryNeeded);
          runs := runs[r := runs[r].(row := row)];
        }
      }
      assert stale[..|stale|] == stale;
    }

    method HandleDisconnect(agent: nat, active: seq<nat>, unwritten: set<nat>)
      requires Lists(active, runs)
      modifies this
      ensures runs.Keys == old(runs).Keys
      ensures forall r :: r in runs ==> runs[r] == Disconnected(old(runs)[r], agent, r !in unwritten)
    {
      for i := 0 to |active|
        invariant runs.Keys == old(runs).Keys
        invariant forall r :: r in active[..i] ==> runs[r] == Disconnected(old(runs)[r], agent, r !in unwritten)
        invariant forall r :: r in runs && r !in active[..i] ==> runs[r] == old(runs)[r]
      {
        var r := active[i];
        assert r in active && r !in active[..i];
        var was := runs[r];
        if was.row.order.agent != agent {
          continue;
        }
        if was.op.OpRestore? {
          if r !in unwritten {
            runs := runs[r := was.(row := UpdateRestorePhase(was.row, PhaseManualRecoveryNeeded))];
          }
          continue;
        }
        if Retryable(was.op) {
          var _ := Transition(r, was.row.status, Queued, NoError, r !in unwritten);
          continue;
        }
        var _ := Transition(r, was.row.status, Failed, AgentDisconnected, r !in unwritten);
      }
      assert active[..|active|] == active;
    }
  }

  /** Neither puts a run back into the queue that must not be repeated, and neither frees what an
      unconcluded restore occupies; a restart with working writes leaves no run active, a disconnect
      none of the agent's but its restores, whose execution may go on. */
  lemma LostWorkIsNotRepeated(u: Run, agent: nat, w1: bool, w2: bool)
    ensures var a, b := Restarted(u, w1, w2), Disconnected(u, agent, w1);
      && (!Retryable(u.op) && u.row.status != Queued ==> a.row.status != Queued && b.row.status != Queued)
      && (u.op.OpRestore? ==> ReleasesOccupancy(a.row.phase) == ReleasesOccupancy(u.row.phase) == ReleasesOccupancy(b.row.phase))
      && (w1 ==> !IsActive(a.row.status))
      && (w1 && u.row.order.agent == agent && IsActive(b.row.status) ==> u.op.OpRestore? && b.row.status == u.row.status)
      && (u.row.order.agent != agent ==> b == u)
  {
  }

  /** What a restart leaves of a restore that was under way: failed, and in the hands of an operator unless
      it had concluded or the second write failed; then its phase still occupies the target. */
  lemma InterruptedRestore(u: Run, w2: bool)
    requires u.op.OpRestore? && IsActive(u.row.status) && !IsTerminalPhase(u.row.phase)
    ensures var a := Restarted(u, true, w2).row;
      && a.status == Failed && a.code == AgentDisconnected
      && a.phase == (if w2 then PhaseManualRecoveryNeeded else u.row.phase)
      && (ResolveRestoreRequest(a).Some? <==> w2)
  {
  }
}
