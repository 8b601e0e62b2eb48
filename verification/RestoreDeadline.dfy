/** The grace period of a restore that was asked to stop: RequestRestoreStop (internal/server/store/sqlite.go)
    and its callers, cancelRestore and handleRestoreTimeout (internal/server/dispatchgrpc/dispatcher.go). */
module RestoreDeadline {
  import opened RestorePhases
  import opened RestoreStore

  /** A restore's rows with the lease, which serves as the deadline; times are in seconds. */
  datatype Watched = Watched(row: Row, lease: Option<int>)

  const Grace: int := 1800

  /** The lease is written with the phase, unless the phase is concluded. */
  function RequestRestoreStop(w: Watched, deadline: int): Watched {
    if IsTerminalPhase(w.row.phase) then w else Watched(w.row.(phase := PhaseCancelling), Some(deadline))
  }

  function MarkManualRecovery(w: Watched): Watched {
    Watched(FinishRestoreRun(w.row, Unfinished, Failed, RunTimeout, PhaseManualRecoveryNeeded), None)
  }

  /** The operator cancels. */
  function Cancel(w: Watched, now: int): Watched {
    if IsTerminal(w.row.status) then w
    else if w.row.status == Queued then Watched(FinishRestoreRun(w.row, {Queued}, Cancelled, CodeCancelled, PhaseFailed), None)
    else RequestRestoreStop(w, now + Grace)
  }

  /** The watchdog looks at a restore; `connected`: its agent has a stream. */
  function Tick(w: Watched, now: int, connected: bool): Watched {
    if !IsActive(w.row.status) || w.lease.None? || now < w.lease.value || IsTerminalPhase(w.row.phase) then w
    else if !connected || w.row.phase.PhaseCancelling? then MarkManualRecovery(w)
    else RequestRestoreStop(w, now + Grace)
  }

  datatype Event = Canceled(now: int) | Ticked(now: int, connected: bool) | Progressed(phase: Phase)

  function Apply(w: Watched, e: Event): Watched {
    match e
    case Canceled(now) => Cancel(w, now)
    case Ticked(now, connected) => Tick(w, now, connected)
    case Progressed(phase) => w.(row := UpdateRestorePhase(w.row, phase))
  }

  function ApplyAll(w: Watched, events: seq<Event>): Watched
    decreases |events|
  {
    if events == [] then w else ApplyAll(Apply(w, events[0]), events[1..])
  }

  // ----- when a deadline is rewritten ------------------------------------------------------

  /** A stop request leaves the deadline alone exactly when the phase is concluded, or it asks for the same
      deadline: a deadline that an earlier request wrote is no exception. */
  lemma StopKeepsDeadlineExact(w: Watched, deadline: int)
    ensures RequestRestoreStop(w, deadline).lease == w.lease <==> IsTerminalPhase(w.row.phase) || w.lease == Some(deadline)
  {
  }

  /** A tick moves the deadline exactly when it has expired, the agent is connected, and the phase is
      neither concluded nor `cancelling`; it ends the run exactly when instead the agent is gone or the
      phase is `cancelling`. */
  lemma TickExact(w: Watched, now: int, connected: bool)
    requires IsActive(w.row.status)
    ensures var t := Tick(w, now, connected);
      var due := w.lease.Some? && w.lease.value <= now && !IsTerminalPhase(w.row.phase);
      && (t.lease.Some? && t.lease != w.lease <==> due && connected && !w.row.phase.PhaseCancelling?)
      && (IsTerminal(t.row.status) <==> due && (!connected || w.row.phase.PhaseCancelling?))
  {
  }

  /** Stopping under way: asked to stop, with a deadline. */
  predicate Stopping(w: Watched, deadline: int) {
    IsActive(w.row.status) && w.row.phase.PhaseCancelling? && w.lease == Some(deadline)
  }

  predicate OnlyTicks(events: seq<Event>) {
    forall i :: 0 <= i < |events| ==> events[i].Ticked?
  }

  predicate Reaches(events: seq<Event>, deadline: int) {
    exists i :: 0 <= i < |events| && events[i].Ticked? && deadline <= events[i].now
  }

  /** Ticks alone never extend the grace: as long as none is at the deadline nothing changes, and the first
      that is hands the restore to an operator. */
  lemma {:induction false} TicksKeepDeadline(w: Watched, deadline: int, events: seq<Event>)
    requires Stopping(w, deadline) && OnlyTicks(events)
    ensures var t := ApplyAll(w, events);
      if Reaches(events, deadline)
      then t.row.status == Failed && t.row.code == RunTimeout && t.row.phase.PhaseManualRecoveryNeeded? && t.lease == None
      else t == w
    decreases |events|
  {
    if events != [] {
      var rest := events[1..];
      assert OnlyTicks(rest);
      if deadline <= events[0].now {
        EndedStays(Apply(w, events[0]), rest);
        assert Reaches(events, deadline);
      } else {
        TicksKeepDeadline(w, deadline, rest);
        if Reaches(rest, deadline) {
          var i :| 0 <= i < |rest| && rest[i].Ticked? && deadline <= rest[i].now;
          assert events[i + 1] == rest[i];
        }
        if Reaches(events, deadline) {
          var i :| 0 <= i < |events| && events[i].Ticked? && deadline <= events[i].now;
          assert rest[i - 1] == events[i];
        }
      }
    }
  }

  lemma {:induction false} EndedStays(w: Watched, events: seq<Event>)
    requires IsTerminal(w.row.status) && OnlyTicks(events)
    ensures ApplyAll(w, events) == w
    decreases |events|
  {
    if events != [] {
      assert OnlyTicks(events[1..]);
      EndedStays(w, events[1..]);
    }
  }

  /** Cancelling again before the deadline postpones it, any number of times. */
  lemma {:induction false} CancelPostpones(w: Watched, deadline: int, n: nat) returns (events: seq<Event>)
    requires Stopping(w, deadline)
    ensures |events| == n && Stopping(ApplyAll(w, events), deadline + n * Grace)
    ensures forall i :: 0 <= i < n ==> events[i] == Canceled(deadline + i * Grace)
    decreases n
  {
    if n == 0 {
      events := [];
    } else {
      var next := Apply(w, Canceled(deadline));
      var rest := CancelPostpones(next, deadline + Grace, n - 1);
      events := [Canceled(deadline)] + rest;
      assert events[1..] == rest;
    }
  }

  /** So does the agent's progress: it takes `cancelling` back, and the tick at the deadline then asks to
      stop again instead of ending the run. */
  lemma {:induction false} ProgressPostpones(w: Watched, deadline: int, n: nat) returns (events: seq<Event>)
    requires Stopping(w, deadline)
    ensures |events| == 2 * n && Stopping(ApplyAll(w, events), deadline + n * Grace)
    ensures forall i :: 0 <= i < n ==> events[2 * i] == Progressed(PhaseRollingBack) && events[2 * i + 1] == Ticked(deadline + i * Grace, true)
    decreases n
  {
    if n == 0 {
      events := [];
    } else {
      var rolling := Apply(w, Progressed(PhaseRollingBack));
      var next := Apply(rolling, Ticked(deadline, true));
      var rest := ProgressPostpones(next, deadline + Grace, n - 1);
      events := [Progressed(PhaseRollingBack), Ticked(deadline, true)] + rest;
      assert events[1..][1..] == rest;
      forall i | 0 <= i < n
        ensures events[2 * i] == Progressed(PhaseRollingBack) && events[2 * i + 1] == Ticked(deadline + i * Grace, true)
      {
        assert i > 0 ==> events[2 * i] == rest[2 * (i - 1)] && events[2 * i + 1] == rest[2 * (i - 1) + 1];
      }
    }
  }
}
