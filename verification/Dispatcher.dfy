/** The dispatcher's job queues (internal/server/dispatchgrpc/dispatcher.go): the operations performed
    under its locks, and the step system of one repository's queue, worker and watchdog. */
module DispatchQueue {
  import opened RestorePhases

  // ----- the operations under the locks --------------------------------------------------

  /** One repository's queue with its one-slot wake-up channel, and the dispatcher-wide markers. */
  datatype Queue = Queue(jobs: seq<nat>, token: bool, marked: set<nat>, processing: set<nat>)

  function Appended(q: Queue, r: nat): Queue {
    q.(jobs := q.jobs + [r])
  }

  function Signalled(q: Queue): Queue {
    q.(token := true)
  }

  function Marked(q: Queue, r: nat): Queue {
    q.(marked := q.marked + {r})
  }

  function Removed(q: Queue, r: nat): Queue {
    q.(marked := q.marked - {r}, processing := q.processing - {r})
  }

  /** prepareRecovery answers true: no job in the queue and none being processed represents the run. */
  predicate Recoverable(q: Queue, r: nat) {
    r !in q.processing && r !in q.jobs
  }

  class RepoQueue {
    var jobs: seq<nat>
    var token: bool

    constructor ()
      ensures jobs == [] && !token
    {
      jobs, token := [], false;
    }
  }

  class Dispatcher {
    var queues: map<nat, RepoQueue>
    var enqueued: set<nat>
    var processing: set<nat>
    var workers: multiset<nat>   // repositories for which a worker goroutine was started

    /** Each repository has its own queue and exactly one worker. */
    ghost predicate Valid()
      reads this
    {
      && (forall p, q :: p in queues && q in queues && queues[p] == queues[q] ==> p == q)
      && (forall p :: workers[p] == if p in queues then 1 else 0)
    }

    ghost function View(repo: nat): Queue
      reads this, queues.Values
    {
      if repo in queues then Queue(queues[repo].jobs, queues[repo].token, enqueued, processing)
      else Queue([], false, enqueued, processing)
    }

    constructor ()
      ensures Valid() && queues == map[] && enqueued == {} && processing == {}
    {
      queues, enqueued, processing, workers := map[], {}, {}, multiset{};
    }

    /** Enqueue: a marked run is ignored; otherwise it is marked, appended and signalled, and the first
        job of a repository starts its worker. */
    method Enqueue(r: nat, repo: nat)
      requires Valid()
      modifies this, queues.Values
      ensures Valid() && processing == old(processing)
      ensures r in old(enqueued) ==> queues == old(queues) && View(repo) == old(View(repo))
      ensures r !in old(enqueued) ==> View(repo) == Signalled(Appended(Marked(old(View(repo)), r), r))
      ensures forall p :: p in old(queues) ==> p in queues && queues[p] == old(queues[p])
      ensures forall p :: p in old(queues) && p != repo ==> queues[p].jobs == old(queues[p].jobs) && queues[p].token == old(queues[p].token)
    {
      if r in enqueued {
        return;
      }
      enqueued := enqueued + {r};
      if repo !in queues {
        var rq := new RepoQueue();
        queues := queues[repo := rq];
        workers := workers[repo := workers[repo] + 1];
      }
      queues[repo].jobs := queues[repo].jobs + [r];
      queues[repo].token := true;
    }

    /** The worker's pop of the first job. */
    method Pop(repo: nat, rq: RepoQueue) returns (r: Option<nat>)
      requires Valid() && repo in queues && queues[repo] == rq
      modifies rq`jobs
      ensures r.None? ==> old(rq.jobs) == [] && View(repo) == old(View(repo))
      ensures r.Some? ==> [r.value] + rq.jobs == old(rq.jobs)
    {
      if |rq.jobs| == 0 {
        return None;
      }
      r := Some(rq.jobs[0]);
      rq.jobs := rq.jobs[1..];
    }

    method MarkProcessing(r: nat, on: bool)
      modifies this`processing
      ensures processing == if on then old(processing) + {r} else old(processing) - {r}
    {
      processing := if on then processing + {r} else processing - {r};
    }

    method RemoveEnqueued(r: nat)
      modifies this`enqueued, this`processing
      ensures forall repo :: View(repo) == Removed(old(View(repo)), r)
    {
      enqueued := enqueued - {r};
      processing := processing - {r};
    }

    /** requeueJob after its delay; the marker stays. */
    method RequeueJob(r: nat, repo: nat)
      requires Valid()
      modifies this`enqueued, this`processing, queues.Values
      ensures Valid() && queues == old(queues)
      ensures View(repo) == if repo in queues then Signalled(Appended(old(View(repo)), r)) else Removed(old(View(repo)), r)
      ensures forall p :: p in queues && p != repo ==> queues[p].jobs == old(queues[p].jobs) && queues[p].token == old(queues[p].token)
    {
      if repo !in queues {
        RemoveEnqueued(r);
        return;
      }
      queues[repo].jobs := queues[repo].jobs + [r];
      queues[repo].token := true;
    }

    /** prepareRecovery: true exactly when nothing represents the run, and then its marker is dropped. */
    method PrepareRecovery(r: nat, repo: nat) returns (recover: bool)
      modifies this`enqueued
      ensures recover == old(Recoverable(View(repo), r))
      ensures enqueued == if recover then old(enqueued) - {r} else old(enqueued)
    {
      if r in processing {
        return false;
      }
      if repo in queues {
        var jobs := queues[repo].jobs;
        for i := 0 to |jobs|
          invariant r !in jobs[..i]
        {
          if jobs[i] == r {
            return false;
          }
        }
        assert jobs[..|jobs|] == jobs;
      }
      enqueued := enqueued - {r};
      return true;
    }
  }

  // ----- the step system of one repository -----------------------------------------------

  /** `delivered`: the command of the current claim is on a stream's channel. */
  datatype Run = Run(retryable: bool, status: Status, attempt: nat, sends: nat, delivered: bool)

  datatype Worker =
    | Absent
    | Selecting            // waiting for a wake-up
    | Draining             // about to look at the queue
    | Popped(run: nat)     // not marked as processing yet
    | Reading(run: nat)
    | Claimed(run: nat)
    | Unsent(run: nat)     // the send failed, about to revert the claim
    | Polling(run: nat)    // the command is out
    | Parked(run: nat)     // in requeueJob, before the append
    | Rejoined(run: nat)   // in requeueJob, before the signal
    | Dropping(run: nat)   // before removeEnqueued
    | Finished(run: nat)   // before the processing mark is taken off

  datatype Watch = Off | Listed(todo: set<nat>) | Recovering(todo: set<nat>, run: nat)

  /** The last four fields only record history. */
  datatype State = State(
    runs: map<nat, Run>,
    q: Queue,
    worker: Worker,
    signaller: Option<nat>,  // an Enqueue holds the dispatcher's mutex between append and signal
    watch: Watch,
    since: set<nat>,         // queued when the latest watchdog pass read its list, and ever since
    dropped: set<nat>,       // queued runs whose last job the worker dropped since then
    abandoned: set<nat>,     // runs the dispatcher left active after a store failure
    disturbed: set<nat>)     // runs it could not read, or queued again between claim and send

  /** The worker's own steps, in the order of repoWorker and processJob. */
  datatype WorkerStep =
    | Wake
    | Pop
    | Sleep
    | Mark
    | ReadFails
    | LookupFails              // the restore request is unavailable
    | Postpone                 // repository blocked, agent offline, or the claim could not be written
    | NotQueued                // the claim's compare-and-set fails
    | Claim
    | BuildFails(written: bool)
    | Refuse                   // the stream has not reported safe-restore capability
    | Send
    | SendFails
    | Revert(written: bool)
    | PollEnds
    | PollRequeued
    | PollFails
    | Append
    | Rejoin
    | Drop
    | Unmark

  /** What the agent, the user and the timers do to one run. */
  datatype RowStep =
    | Accept
    | Conclude(to: Status)
    | Reconcile
    | Requeue
    | Cancel
    | FailQueued

  datatype QueueStep =
    | EnqueueAppend(run: nat)
    | EnqueueSignal
    | WatchList
    | WatchCheck(run: nat)
    | WatchEnqueue
    | WatchDone

  datatype Step =
    | Create(run: nat, retryable: bool)
    | Work(w: WorkerStep)
    | Row(run: nat, row: RowStep)
    | Queueing(e: QueueStep)
    | Restart(unwritten: set<nat>)

  /** The worker is processing a job. */
  predicate Busy(w: Worker) {
    !w.Absent? && !w.Selecting? && !w.Draining?
  }

  /** The run whose job the worker holds. */
  predicate Held(w: Worker, r: nat) {
    Busy(w) && !w.Finished? && w.run == r
  }

  predicate PreSend(w: Worker, r: nat) {
    (w.Claimed? || w.Unsent?) && w.run == r
  }

  predicate InFlight(w: Worker, r: nat) {
    PreSend(w, r) || (w.Polling? && w.run == r)
  }

  predicate WorkerEnabled(s: State, step: WorkerStep) {
    (Busy(s.worker) ==> s.worker.run in s.runs) &&
    match step
    case Wake => s.worker.Selecting? && s.q.token
    case Pop => s.worker.Draining? && s.q.jobs != []
    case Sleep => s.worker.Draining? && s.q.jobs == []
    case Mark => s.worker.Popped? && s.signaller.None?
    case ReadFails => s.worker.Reading?
    case LookupFails => s.worker.Reading? && !s.runs[s.worker.run].retryable
    case Postpone => s.worker.Reading?
    case NotQueued => s.worker.Reading? && s.runs[s.worker.run].status != Queued
    case Claim => s.worker.Reading? && s.runs[s.worker.run].status == Queued
    case BuildFails(_) => s.worker.Claimed?
    case Refuse => s.worker.Claimed? && !s.runs[s.worker.run].retryable
    case Send => s.worker.Claimed?
    case SendFails => s.worker.Claimed?
    case Revert(_) => s.worker.Unsent?
    case PollEnds => s.worker.Polling? && IsTerminal(s.runs[s.worker.run].status)
    case PollRequeued => s.worker.Polling? && s.runs[s.worker.run].status == Queued
    case PollFails => s.worker.Polling?
    case Append => s.worker.Parked? && s.signaller.None?
    case Rejoin => s.worker.Rejoined?
    case Drop => s.worker.Dropping? && s.signaller.None?
    case Unmark => s.worker.Finished? && s.signaller.None?
  }

  predicate RowEnabled(u: Run, step: RowStep) {
    match step
    case Accept => u.status == Dispatched && u.delivered
    case Conclude(to) => IsActive(u.status) && IsTerminal(to)
    case Reconcile => u.status == Cancelled
    case Requeue => u.retryable && IsActive(u.status)
    case Cancel => !IsTerminal(u.status)
    case FailQueued => u.status == Queued
  }

  predicate QueueEnabled(s: State, step: QueueStep) {
    match step
    case EnqueueAppend(r) => s.signaller.None? && r in s.runs && r !in s.q.marked
    case EnqueueSignal => s.signaller.Some?
    case WatchList => s.watch.Off?
    case WatchCheck(r) => s.watch.Listed? && r in s.watch.todo && s.signaller.None?
    case WatchEnqueue => s.watch.Recovering? && s.signaller.None?
    case WatchDone => s.watch.Listed? && s.watch.todo == {}
  }

  predicate Enabled(s: State, step: Step) {
    match step
    case Create(r, _) => r !in s.runs
    case Work(w) => WorkerEnabled(s, w)
    case Row(r, row) => r in s.runs && RowEnabled(s.runs[r], row)
    case Queueing(e) => QueueEnabled(s, e)
    case Restart(_) => true
  }

  /** A run's row changes; one that leaves the queue has not been queued ever since. */
  function SetRun(s: State, r: nat, u: Run): State
    requires r in s.runs
  {
    s.(runs := s.runs[r := u], since := if u.status == Queued then s.since else s.since - {r})
  }

  function SetStatus(s: State, r: nat, to: Status): State
    requires r in s.runs
  {
    SetRun(s, r, s.runs[r].(status := to))
  }

  function Go(s: State, w: Worker): State {
    s.(worker := w)
  }

  /** failRestoreBeforeSend: only a run that is queued or dispatched is failed. */
  function FailedBeforeSend(s: State, r: nat): State
    requires r in s.runs
  {
    if s.runs[r].status == Queued || s.runs[r].status == Dispatched then SetStatus(s, r, Failed) else s
  }

  function Abandoned(s: State, r: nat): State {
    s.(abandoned := s.abandoned + {r})
  }

  /** Enqueue up to the signal. */
  function Enqueued(s: State, r: nat): State {
    s.(q := Appended(Marked(s.q, r), r), signaller := Some(r), worker := if s.worker.Absent? then Selecting else s.worker,
       dropped := s.dropped - {r})
  }

  function WorkerApply(s: State, step: WorkerStep): State
    requires WorkerEnabled(s, step)
  {
    match step
    case Wake => Go(s.(q := s.q.(token := false)), Draining)
    case Pop => Go(s.(q := s.q.(jobs := s.q.jobs[1..])), Popped(s.q.jobs[0]))
    case Sleep => Go(s, Selecting)
    case Mark => Go(s.(q := s.q.(processing := s.q.processing + {s.worker.run})), Reading(s.worker.run))
    case ReadFails => Go(s.(disturbed := s.disturbed + {s.worker.run}), Dropping(s.worker.run))
    case LookupFails => Go(FailedBeforeSend(s, s.worker.run), Dropping(s.worker.run))
    case Postpone => Go(s, Parked(s.worker.run))
    case NotQueued => Go(s, Dropping(s.worker.run))
    case Claim =>
      var u := s.runs[s.worker.run];
      Go(SetRun(s, s.worker.run, u.(status := Dispatched, attempt := u.attempt + 1, delivered := false)), Claimed(s.worker.run))
    case BuildFails(written) =>
      var r := s.worker.run;
      Go(if !written then Abandoned(s, r) else if s.runs[r].status == Dispatched then SetStatus(s, r, Failed) else s, Dropping(r))
    case Refuse => Go(FailedBeforeSend(s, s.worker.run), Dropping(s.worker.run))
    case Send =>
      var u := s.runs[s.worker.run];
      Go(SetRun(s, s.worker.run, u.(sends := u.sends + 1, delivered := true)), Polling(s.worker.run))
    case SendFails => Go(s, Unsent(s.worker.run))
    case Revert(written) =>
      var r := s.worker.run;
      if !written then Go(Abandoned(s, r), Dropping(r))
      else if s.runs[r].status == Dispatched then Go(SetStatus(s, r, Queued), Parked(r))
      else Go(s, Dropping(r))
    case PollEnds => Go(s, Dropping(s.worker.run))
    case PollRequeued => Go(s, Parked(s.worker.run))
    case PollFails => Go(Abandoned(s, s.worker.run), Dropping(s.worker.run))
    case Append => Go(s.(q := Appended(s.q, s.worker.run), dropped := s.dropped - {s.worker.run}), Rejoined(s.worker.run))
    case Rejoin => Go(s.(q := Signalled(s.q)), Finished(s.worker.run))
    case Drop =>
      var r := s.worker.run;
      Go(s.(q := Removed(s.q, r), dropped := if s.runs[r].status == Queued && r !in s.q.jobs then s.dropped + {r} else s.dropped),
         Finished(r))
    case Unmark => Go(s.(q := s.q.(processing := s.q.processing - {s.worker.run})), Draining)
  }

  function RowApply(s: State, r: nat, step: RowStep): State
    requires r in s.runs && RowEnabled(s.runs[r], step)
  {
    match step
    case Accept => SetStatus(s, r, Running)
    case Conclude(to) => SetStatus(s, r, to)
    case Reconcile => SetStatus(s, r, Succeeded)
    case Requeue => SetStatus(s.(disturbed := if PreSend(s.worker, r) then s.disturbed + {r} else s.disturbed), r, Queued)
    case Cancel => SetStatus(s, r, Cancelled)
    case FailQueued => SetStatus(s, r, Failed)
  }

  ghost function QueuedRuns(s: State): set<nat> {
    set r | r in s.runs && s.runs[r].status == Queued
  }

  ghost function QueueApply(s: State, step: QueueStep): State
    requires QueueEnabled(s, step)
  {
    match step
    case EnqueueAppend(r) => Enqueued(s, r)
    case EnqueueSignal => s.(q := Signalled(s.q), signaller := None)
    case WatchList => s.(watch := Listed(QueuedRuns(s)), since := QueuedRuns(s), dropped := {})
    case WatchCheck(r) =>
      if Recoverable(s.q, r) then s.(q := s.q.(marked := s.q.marked - {r}), watch := Recovering(s.watch.todo - {r}, r))
      else s.(watch := Listed(s.watch.todo - {r}))
    case WatchEnqueue =>
      (if s.watch.run in s.q.marked then s else Enqueued(s, s.watch.run)).(watch := Listed(s.watch.todo))
    case WatchDone => s.(watch := Off)
  }

  /** recoverStaleRuns, where the write succeeds. */
  function Recovered(u: Run, written: bool): Run {
    if !written || !IsActive(u.status) then u
    else u.(status := if u.retryable then Queued else Failed)
  }

  ghost function Apply(s: State, step: Step): State
    requires Enabled(s, step)
  {
    match step
    case Create(r, retryable) => s.(runs := s.runs[r := Run(retryable, Queued, 0, 0, false)])
    case Work(w) => WorkerApply(s, w)
    case Row(r, row) => RowApply(s, r, row)
    case Queueing(e) => QueueApply(s, e)
    case Restart(unwritten) =>
      State(map r | r in s.runs :: Recovered(s.runs[r], r !in unwritten), Queue([], false, {}, {}), Absent, None, Off, {}, {},
            s.abandoned + unwritten, s.disturbed)
  }

  ghost predicate Initial(s: State) {
    s == State(map[], Queue([], false, {}, {}), Absent, None, Off, {}, {}, {}, {})
  }

  ghost predicate StepTo(s: State, step: Step, s': State) {
    Enabled(s, step) && s' == Apply(s, step)
  }

  ghost predicate Execution(states: seq<State>, steps: seq<Step>) {
    && |states| == |steps| + 1
    && Initial(states[0])
    && forall i :: 0 <= i < |steps| ==> StepTo(states[i], steps[i], states[i + 1])
  }

  // ----- what must hold ------------------------------------------------------------------

  /** No wake-up is lost: a non-empty queue has a pending token, a worker that will look at the queue
      again before it waits, or an enqueuer about to signal. */
  predicate NoLostWakeup(s: State) {
    s.q.jobs != [] ==> s.q.token || s.worker.Draining? || Busy(s.worker) || s.signaller.Some?
  }

  /** The run is represented: in the queue or held by the worker. */
  predicate Located(s: State, r: nat) {
    r in s.q.jobs || Held(s.worker, r)
  }

  /** The pass still has the run ahead of it. */
  predicate Ahead(w: Watch, r: nat) {
    match w
    case Off => false
    case Listed(todo) => r in todo
    case Recovering(todo, run) => r in todo || r == run
  }

  /** A watchdog pass repairs what it has dealt with: a run that was queued when the list was read, and
      ever since, is represented if and only if the worker has not dropped its last job meanwhile; and the
      worker drops the job of a queued run only after a failed read, a failed write, or a requeue between
      claim and send. */
  predicate PassRepairs(s: State) {
    && (forall r :: r in s.since && !Ahead(s.watch, r) ==> (Located(s, r) <==> r !in s.dropped))
    && (forall r :: r in s.dropped ==> !Located(s, r))
    && s.dropped <= s.abandoned + s.disturbed
  }

  /** A command is sent at most once per claim, and that of an operation that must not be repeated at
      most once in the life of the run. */
  predicate SendsBounded(s: State) {
    forall r :: r in s.runs ==> s.runs[r].sends <= s.runs[r].attempt && (!s.runs[r].retryable ==> s.runs[r].sends <= 1)
  }

  /** Of two runs of the repository that are dispatched or running, one was abandoned after a store failure. */
  predicate OneActive(s: State) {
    forall p, r :: p in s.runs && r in s.runs && p != r && IsActive(s.runs[p].status) && IsActive(s.runs[r].status) ==>
      p in s.abandoned || r in s.abandoned
  }

  // ----- the invariant -------------------------------------------------------------------

  predicate RunOk(u: Run, preSend: bool, inFlight: bool, dropping: bool, abandoned: bool, disturbed: bool) {
    && u.sends <= u.attempt
    && (preSend ==> u.sends < u.attempt && !u.delivered && u.status != Running && (u.status == Queued ==> disturbed))
    && (!u.retryable ==> u.sends <= 1 && (preSend ==> u.status != Queued) && (u.status == Queued || preSend ==> u.sends == 0))
    && (IsActive(u.status) ==> inFlight || abandoned)
    && (dropping ==> IsTerminal(u.status) || abandoned || disturbed)
  }

  predicate RowOk(s: State, r: nat)
    requires r in s.runs
  {
    RunOk(s.runs[r], PreSend(s.worker, r), InFlight(s.worker, r), s.worker == Dropping(r), r in s.abandoned, r in s.disturbed)
  }

  predicate RunsOk(s: State) {
    forall r :: r in s.runs ==> RowOk(s, r)
  }

  predicate QueueOk(s: State) {
    && NoLostWakeup(s)
    && (s.worker.Absent? ==> s.q.jobs == [] && s.q.marked == {} && s.signaller.None?)
    && (forall r :: r in s.q.jobs ==> r in s.runs)
    && (Busy(s.worker) ==> s.worker.run in s.runs)
    && (forall r :: r in s.q.processing ==> Busy(s.worker) && s.worker.run == r && (s.worker.Finished? ==> r in s.q.jobs))
    && (forall r :: r in s.q.marked ==> Located(s, r))
    && (s.worker.Rejoined? ==> s.worker.run in s.q.jobs)
  }

  ghost predicate WatchOk(s: State) {
    && PassRepairs(s)
    && (forall r :: Ahead(s.watch, r) ==> r in s.runs)
    && (forall r :: r in s.since ==> r in s.runs && s.runs[r].status == Queued)
  }

  ghost predicate Inv(s: State) {
    QueueOk(s) && RunsOk(s) && WatchOk(s)
  }

  lemma WorkerKeepsQueue(s: State, step: WorkerStep)
    requires QueueOk(s) && WorkerEnabled(s, step)
    ensures QueueOk(WorkerApply(s, step))
  {
    var t := WorkerApply(s, step);
    if step.Pop? {
      assert s.q.jobs == [s.q.jobs[0]] + t.q.jobs;
    } else if step.Append? || step.Drop? || step.Unmark? || step.Mark? {
    } else {
      assert t.q.jobs == s.q.jobs && t.q.marked == s.q.marked && t.q.processing == s.q.processing;
    }
  }

  lemma WorkerKeepsRow(s: State, step: WorkerStep, r: nat)
    requires QueueOk(s) && r in s.runs && RowOk(s, r) && WorkerEnabled(s, step)
    ensures RowOk(WorkerApply(s, step), r)
  {
    if Busy(s.worker) && s.worker.run == r {
    } else {
      assert WorkerApply(s, step).runs[r] == s.runs[r];
    }
  }

  /** A job leaves the queue only for the worker's hands, and those only when it is dropped. */
  lemma WorkerLocates(s: State, step: WorkerStep, r: nat)
    requires QueueOk(s) && Located(s, r) && WorkerEnabled(s, step)
    ensures Located(WorkerApply(s, step), r) || (step.Drop? && r == s.worker.run && r !in s.q.jobs)
  {
    if step.Pop? {
      assert s.q.jobs == [s.q.jobs[0]] + WorkerApply(s, step).q.jobs;
    }
  }

  lemma WorkerMisses(s: State, step: WorkerStep, r: nat)
    requires QueueOk(s) && WorkerEnabled(s, step) && (r in s.dropped ==> !Located(s, r))
    ensures r in WorkerApply(s, step).dropped ==> !Located(WorkerApply(s, step), r)
  {
    if step.Pop? {
      assert s.q.jobs == [s.q.jobs[0]] + WorkerApply(s, step).q.jobs;
    }
  }

  lemma WorkerKeepsWatch(s: State, step: WorkerStep)
    requires QueueOk(s) && WatchOk(s) && RunsOk(s) && WorkerEnabled(s, step)
    ensures WatchOk(WorkerApply(s, step))
  {
    var t := WorkerApply(s, step);
    assert t.watch == s.watch && t.runs.Keys == s.runs.Keys && t.since <= s.since;
    assert forall r :: r in t.since ==> t.runs[r].status == Queued;
    forall r | r in t.since && !Ahead(t.watch, r)
      ensures Located(t, r) || r in t.dropped
    {
      if Located(s, r) {
        WorkerLocates(s, step, r);
      }
    }
    forall r | r in t.dropped
      ensures !Located(t, r)
    {
      WorkerMisses(s, step, r);
    }
    WorkerDrops(s, step);
  }

  lemma WorkerDrops(s: State, step: WorkerStep)
    requires RunsOk(s) && s.dropped <= s.abandoned + s.disturbed && WorkerEnabled(s, step)
    ensures var t := WorkerApply(s, step); t.dropped <= t.abandoned + t.disturbed
  {
    var t := WorkerApply(s, step);
    assert s.abandoned <= t.abandoned && s.disturbed <= t.disturbed;
    if step.Drop? {
      assert RowOk(s, s.worker.run);
    } else {
      assert t.dropped <= s.dropped;
    }
  }

  lemma RowKeepsRow(s: State, r: nat, step: RowStep, p: nat)
    requires r in s.runs && RowEnabled(s.runs[r], step) && p in s.runs && RowOk(s, p)
    ensures RowOk(RowApply(s, r, step), p)
  {
  }

  lemma RowKeepsQueues(s: State, r: nat, step: RowStep)
    requires QueueOk(s) && WatchOk(s) && r in s.runs && RowEnabled(s.runs[r], step)
    ensures QueueOk(RowApply(s, r, step)) && WatchOk(RowApply(s, r, step))
  {
    var t := RowApply(s, r, step);
    assert t.q == s.q && t.worker == s.worker && t.watch == s.watch && t.runs.Keys == s.runs.Keys;
  }

  lemma QueueingKeepsQueue(s: State, step: QueueStep)
    requires QueueOk(s) && WatchOk(s) && QueueEnabled(s, step)
    ensures QueueOk(QueueApply(s, step))
  {
  }

  lemma QueueingKeepsWatch(s: State, step: QueueStep)
    requires QueueOk(s) && WatchOk(s) && QueueEnabled(s, step)
    ensures WatchOk(QueueApply(s, step))
  {
  }

  lemma QueueingKeepsRow(s: State, step: QueueStep, r: nat)
    requires r in s.runs && RowOk(s, r) && QueueEnabled(s, step)
    ensures RowOk(QueueApply(s, step), r)
  {
  }

  lemma StepKeeps(s: State, step: Step)
    requires Inv(s) && Enabled(s, step)
    ensures Inv(Apply(s, step))
  {
    var t := Apply(s, step);
    forall r | r in t.runs
      ensures RowOk(t, r)
    {
      assert r in s.runs ==> RowOk(s, r);
      match step
      case Create(_, _) =>
      case Work(w) => WorkerKeepsRow(s, w, r);
      case Row(p, row) => RowKeepsRow(s, p, row, r);
      case Queueing(e) => QueueingKeepsRow(s, e, r);
      case Restart(_) =>
    }
    match step
    case Create(_, _) =>
    case Work(w) =>
      WorkerKeepsQueue(s, w);
      WorkerKeepsWatch(s, w);
    case Row(r, row) => RowKeepsQueues(s, r, row);
    case Queueing(e) =>
      QueueingKeepsQueue(s, e);
      QueueingKeepsWatch(s, e);
    case Restart(_) =>
  }

  lemma {:induction false} ExecutionInv(states: seq<State>, steps: seq<Step>, i: nat)
    requires Execution(states, steps) && i < |states|
    ensures Inv(states[i])
  {
    if i > 0 {
      ExecutionInv(states, steps, i - 1);
      assert StepTo(states[i - 1], steps[i - 1], states[i]);
      StepKeeps(states[i - 1], steps[i - 1]);
    }
  }

  // ----- the main results ----------------------------------------------------------------

  /** In every reachable state: no wake-up is lost, the watchdog repairs what it passes, commands are not
      repeated, and only a store failure lets two runs of the repository be active. */
  lemma DispatchSafety(states: seq<State>, steps: seq<Step>, i: nat)
    requires Execution(states, steps) && i < |states|
    ensures NoLostWakeup(states[i]) && PassRepairs(states[i]) && SendsBounded(states[i]) && OneActive(states[i])
  {
    ExecutionInv(states, steps, i);
    var s := states[i];
    forall r | r in s.runs
      ensures s.runs[r].sends <= s.runs[r].attempt && (!s.runs[r].retryable ==> s.runs[r].sends <= 1)
      ensures IsActive(s.runs[r].status) ==> InFlight(s.worker, r) || r in s.abandoned
    {
      assert RowOk(s, r);
    }
  }

  /** The store failures that make the dispatcher leave an active run: a failed write of the build error
      or of the reverted claim, a failed read while waiting for the run, and failed writes at start-up. */
  predicate StoreFails(step: Step) {
    match step
    case Work(w) => w == BuildFails(false) || w == Revert(false) || w.PollFails?
    case Restart(unwritten) => unwritten != {}
    case _ => false
  }

  /** The steps after which the worker may drop the job of a queued run. */
  predicate Disturbs(s: State, step: Step) {
    match step
    case Work(w) => w.ReadFails?
    case Row(r, row) => row.Requeue? && PreSend(s.worker, r)
    case _ => false
  }

  lemma {:induction false} FaultsAreRecorded(states: seq<State>, steps: seq<Step>, i: nat)
    requires Execution(states, steps) && i < |states|
    requires forall k :: 0 <= k < i ==> !StoreFails(steps[k])
    ensures states[i].abandoned == {}
    ensures (forall k :: 0 <= k < i ==> !Disturbs(states[k], steps[k])) ==> states[i].disturbed == {}
  {
    if i > 0 {
      FaultsAreRecorded(states, steps, i - 1);
      assert StepTo(states[i - 1], steps[i - 1], states[i]);
    }
  }

  /** When the store neither fails those writes nor that read, at most one run of the repository is
      dispatched or running. */
  lemma AtMostOneActive(states: seq<State>, steps: seq<Step>, i: nat, p: nat, r: nat)
    requires Execution(states, steps) && i < |states|
    requires forall k :: 0 <= k < i ==> !StoreFails(steps[k])
    requires p in states[i].runs && IsActive(states[i].runs[p].status)
    requires r in states[i].runs && IsActive(states[i].runs[r].status)
    ensures p == r
  {
    DispatchSafety(states, steps, i);
    FaultsAreRecorded(states, steps, i);
  }

  /** When the worker is about to claim, another run of the repository is dispatched or running if and only
      if one that the dispatcher left after a store failure still is. */
  lemma SecondActiveExact(states: seq<State>, steps: seq<Step>, i: nat)
    requires Execution(states, steps) && i < |states| && WorkerEnabled(states[i], Claim)
    ensures (exists p :: p in states[i].runs && IsActive(states[i].runs[p].status)) <==>
      exists p :: p in states[i].runs && p in states[i].abandoned && IsActive(states[i].runs[p].status)
  {
    var s := states[i];
    ExecutionInv(states, steps, i);
    if p :| p in s.runs && IsActive(s.runs[p].status) {
      assert RowOk(s, p);
      assert p in s.abandoned;
    }
  }

  // ----- what a watchdog pass leaves behind ------------------------------------------------

  /** The worker may go on to drop the job of this run without looking at the run again. */
  predicate AboutToDrop(w: Worker, r: nat) {
    (w.Claimed? || w.Unsent? || w.Dropping?) && w.run == r
  }

  /** A read of this run's row fails. */
  predicate ReadOf(s: State, step: Step, r: nat) {
    step.Work? && (step.w.ReadFails? || step.w.PollFails?) && Busy(s.worker) && s.worker.run == r
  }

  lemma WindowStep(s: State, step: Step, r: nat)
    requires Inv(s) && Enabled(s, step) && step != Queueing(WatchList) && !ReadOf(s, step, r)
    requires r in s.since ==> r !in s.dropped && !AboutToDrop(s.worker, r)
    ensures var t := Apply(s, step); r in t.since ==> r in s.since && r !in t.dropped && !AboutToDrop(t.worker, r)
  {
  }

  /** The states since the latest watchdog pass read its list. */
  ghost predicate Window(states: seq<State>, steps: seq<Step>, j: nat, i: nat) {
    && Execution(states, steps) && j < i < |states| && steps[j] == Queueing(WatchList)
    && forall k :: j < k < i ==> steps[k] != Queueing(WatchList)
  }

  lemma {:induction false} WindowKeeps(states: seq<State>, steps: seq<Step>, j: nat, i: nat, r: nat)
    requires Window(states, steps, j, i) && !AboutToDrop(states[j].worker, r)
    requires forall k :: j < k < i ==> !ReadOf(states[k], steps[k], r)
    ensures r in states[i].since ==> r !in states[i].dropped && !AboutToDrop(states[i].worker, r)
  {
    assert StepTo(states[i - 1], steps[i - 1], states[i]);
    if j + 1 < i {
      WindowKeeps(states, steps, j, i - 1, r);
      ExecutionInv(states, steps, i - 1);
      WindowStep(states[i - 1], steps[i - 1], r);
    }
  }

  /** A run that was queued when the pass read its list, and ever since, is represented once the pass has
      dealt with it, unless the worker was already past looking at it when the pass began, or a read of
      that run failed since. */
  lemma PassLeavesNoneBehind(states: seq<State>, steps: seq<Step>, j: nat, i: nat, r: nat)
    requires Window(states, steps, j, i) && !AboutToDrop(states[j].worker, r)
    requires forall k :: j < k < i ==> !ReadOf(states[k], steps[k], r)
    requires r in states[i].since && !Ahead(states[i].watch, r)
    ensures Located(states[i], r)
  {
    DispatchSafety(states, steps, i);
    WindowKeeps(states, steps, j, i, r);
  }

  // ----- executions that show the limits ---------------------------------------------------

  lemma Extend(states: seq<State>, steps: seq<Step>, step: Step) returns (states': seq<State>, steps': seq<Step>)
    requires Execution(states, steps) && Enabled(states[|steps|], step)
    ensures Execution(states', steps') && steps' == steps + [step] && states'[|steps'|] == Apply(states[|steps|], step)
  {
    states' := states + [Apply(states[|steps|], step)];
    steps' := steps + [step];
    forall i | 0 <= i < |steps'|
      ensures StepTo(states'[i], steps'[i], states'[i + 1])
    {
      if i < |steps| {
        assert StepTo(states[i], steps[i], states[i + 1]);
      }
    }
  }

  /** The worker looks at its queue; `runs` are in it, in order. */
  predicate Waiting(s: State, jobs: seq<nat>, runs: map<nat, Run>) {
    s == State(runs, Queue(jobs, s.q.token, s.q.marked, {}), Draining, None, Off, s.since, s.dropped, s.abandoned, s.disturbed)
  }

  function Fresh(retryable: bool): Run {
    Run(retryable, Queued, 0, 0, false)
  }

  function Out(u: Run): Run {
    u.(status := Dispatched, attempt := u.attempt + 1, delivered := false)
  }

  lemma TwoWaiting(retryable: bool) returns (states: seq<State>, steps: seq<Step>)
    ensures Execution(states, steps) && forall k :: 0 <= k < |steps| && steps[k].Work? ==> steps[k].w.Wake?
    ensures forall k :: 0 <= k < |steps| ==> !steps[k].Restart?
    ensures Waiting(states[|steps|], [0, 1], map[0 := Fresh(retryable), 1 := Fresh(retryable)])
  {
    states, steps := [State(map[], Queue([], false, {}, {}), Absent, None, Off, {}, {}, {}, {})], [];
    states, steps := Extend(states, steps, Create(0, retryable));
    states, steps := Extend(states, steps, Create(1, retryable));
    states, steps := Extend(states, steps, Queueing(EnqueueAppend(0)));
    states, steps := Extend(states, steps, Queueing(EnqueueSignal));
    states, steps := Extend(states, steps, Queueing(EnqueueAppend(1)));
    states, steps := Extend(states, steps, Queueing(EnqueueSignal));
    states, steps := Extend(states, steps, Work(Wake));
  }

  /** The worker takes the first job up to its claim. */
  lemma TakeUp(states: seq<State>, steps: seq<Step>, r: nat, jobs: seq<nat>, runs: map<nat, Run>)
    returns (states': seq<State>, steps': seq<Step>)
    requires Execution(states, steps) && Waiting(states[|steps|], [r] + jobs, runs) && r in runs && runs[r].status == Queued
    ensures Execution(states', steps') && steps' == steps + [Work(Pop), Work(Mark), Work(Claim)]
    ensures var s, t := states[|steps|], states'[|steps'|];
      t == State(runs[r := Out(runs[r])], Queue(jobs, s.q.token, s.q.marked, {r}), Claimed(r), None, Off,
                 s.since - {r}, s.dropped, s.abandoned, s.disturbed)
  {
    assert ([r] + jobs)[1..] == jobs;
    states', steps' := Extend(states, steps, Work(Pop));
    states', steps' := Extend(states', steps', Work(Mark));
    states', steps' := Extend(states', steps', Work(Claim));
  }

  /** The worker is about to drop its job. */
  predicate AtDrop(s: State, r: nat, jobs: seq<nat>, runs: map<nat, Run>) {
    s == State(runs, Queue(jobs, s.q.token, s.q.marked, {r}), Dropping(r), None, Off, s.since, s.dropped, s.abandoned, s.disturbed)
  }

  /** The worker drops its job and turns to the next. */
  lemma PutDown(states: seq<State>, steps: seq<Step>, r: nat, jobs: seq<nat>, runs: map<nat, Run>)
    returns (states': seq<State>, steps': seq<Step>)
    requires Execution(states, steps) && AtDrop(states[|steps|], r, jobs, runs) && r in runs
    ensures Execution(states', steps') && steps' == steps + [Work(Drop), Work(Unmark)]
    ensures Waiting(states'[|steps'|], jobs, runs)
  {
    states', steps' := Extend(states, steps, Work(Drop));
    states', steps' := Extend(states', steps', Work(Unmark));
  }

  /** The worker is where the failure can hit run 0. */
  lemma BeforeFault(fault: WorkerStep) returns (states: seq<State>, steps: seq<Step>, left: Run)
    requires fault == BuildFails(false) || fault == Revert(false) || fault == PollFails
    ensures Execution(states, steps) && forall k :: 0 <= k < |steps| ==> !StoreFails(steps[k])
    ensures var s := states[|steps|];
      && left.status == Dispatched && WorkerEnabled(s, fault) && s.worker.run == 0
      && s == State(map[0 := left, 1 := Fresh(false)], Queue([1], s.q.token, s.q.marked, {0}), s.worker, None, Off,
                    s.since, s.dropped, s.abandoned, s.disturbed)
  {
    states, steps := TwoWaiting(false);
    states, steps := TakeUp(states, steps, 0, [1], map[0 := Fresh(false), 1 := Fresh(false)]);
    left := Out(Fresh(false));
    if fault.Revert? {
      states, steps := Extend(states, steps, Work(SendFails));
    } else if fault.PollFails? {
      states, steps := Extend(states, steps, Work(Send));
      left := left.(sends := 1, delivered := true);
    }
  }

  lemma Faulted(fault: WorkerStep) returns (states: seq<State>, steps: seq<Step>, left: Run)
    requires fault == BuildFails(false) || fault == Revert(false) || fault == PollFails
    ensures Execution(states, steps) && forall k :: 0 <= k < |steps| && StoreFails(steps[k]) ==> steps[k] == Work(fault)
    ensures left.status == Dispatched && AtDrop(states[|steps|], 0, [1], map[0 := left, 1 := Fresh(false)])
  {
    states, steps, left := BeforeFault(fault);
    states, steps := Extend(states, steps, Work(fault));
  }

  lemma LeftOut(fault: WorkerStep) returns (states: seq<State>, steps: seq<Step>, left: Run)
    requires fault == BuildFails(false) || fault == Revert(false) || fault == PollFails
    ensures Execution(states, steps) && forall k :: 0 <= k < |steps| && StoreFails(steps[k]) ==> steps[k] == Work(fault)
    ensures left.status == Dispatched && Waiting(states[|steps|], [1], map[0 := left, 1 := Fresh(false)])
  {
    states, steps, left := Faulted(fault);
    states, steps := PutDown(states, steps, 0, [1], map[0 := left, 1 := Fresh(false)]);
  }

  /** Each of the failures alone is enough: an unwritten build error, an unwritten revert, and, with all
      writes succeeding, an unread row leave run 0 dispatched while run 1 is claimed. */
  lemma OneFailureTwoActive(fault: WorkerStep) returns (states: seq<State>, steps: seq<Step>)
    requires fault == BuildFails(false) || fault == Revert(false) || fault == PollFails
    ensures Execution(states, steps) && forall k :: 0 <= k < |steps| && StoreFails(steps[k]) ==> steps[k] == Work(fault)
    ensures var s := states[|steps|]; s.runs.Keys == {0, 1} && s.runs[0].status == Dispatched && s.runs[1].status == Dispatched
  {
    var left: Run;
    states, steps, left := LeftOut(fault);
    assert [1] + [] == [1];
    states, steps := TakeUp(states, steps, 1, [], map[0 := left, 1 := Fresh(false)]);
  }

  lemma RestartedUnwritten() returns (states: seq<State>, steps: seq<Step>)
    ensures Execution(states, steps) && forall k :: 0 <= k < |steps| && StoreFails(steps[k]) ==> steps[k] == Restart({0})
    ensures var s := states[|steps|];
      s == State(map[0 := Out(Fresh(false)), 1 := Fresh(false)], Queue([], false, {}, {}), Absent, None, Off, {}, {}, s.abandoned, s.disturbed)
  {
    states, steps := TwoWaiting(false);
    states, steps := TakeUp(states, steps, 0, [1], map[0 := Fresh(false), 1 := Fresh(false)]);
    states, steps := Extend(states, steps, Restart({0}));
  }

  /** So is a start-up that cannot write one of the runs it finds active. */
  lemma UnwrittenRestartTwoActive() returns (states: seq<State>, steps: seq<Step>)
    ensures Execution(states, steps) && forall k :: 0 <= k < |steps| && StoreFails(steps[k]) ==> steps[k] == Restart({0})
    ensures var s := states[|steps|]; s.runs.Keys == {0, 1} && s.runs[0].status == Dispatched && s.runs[1].status == Dispatched
  {
    states, steps := RestartedUnwritten();
    states, steps := Extend(states, steps, Queueing(EnqueueAppend(1)));
    states, steps := Extend(states, steps, Queueing(EnqueueSignal));
    states, steps := Extend(states, steps, Work(Wake));
    assert [1] + [] == [1];
    states, steps := TakeUp(states, steps, 1, [], map[0 := Out(Fresh(false)), 1 := Fresh(false)]);
  }

  /** The run was listed by the pass and has waited ever since, the pass has dealt with it, and nothing
      represents it. */
  predicate LeftBehind(s: State, r: nat) {
    r in s.since && !Ahead(s.watch, r) && !Located(s, r) && r in s.runs && s.runs[r].status == Queued
  }

  /** The pass is done with run 0, which the worker holds. */
  predicate PassedOver(s: State) {
    && s.watch.Listed? && 0 in s.since && 0 !in s.watch.todo && 0 !in s.q.jobs && s.signaller.None?
    && 0 in s.runs && s.runs[0].status == Queued
  }

  lemma DropLeavesBehind(states: seq<State>, steps: seq<Step>) returns (states': seq<State>, steps': seq<Step>)
    requires Execution(states, steps) && PassedOver(states[|steps|]) && states[|steps|].worker == Dropping(0)
    ensures Execution(states', steps') && steps' == steps + [Work(Drop)] && LeftBehind(states'[|steps'|], 0)
  {
    states', steps' := Extend(states, steps, Work(Drop));
  }

  lemma PassedWhileReading() returns (states: seq<State>, steps: seq<Step>)
    ensures Execution(states, steps) && PassedOver(states[|steps|]) && states[|steps|].worker == Reading(0)
    ensures forall k :: 0 <= k < |steps| ==> !StoreFails(steps[k])
  {
    states, steps := TwoWaiting(true);
    assert [0, 1][1..] == [1];
    states, steps := Extend(states, steps, Queueing(WatchList));
    states, steps := Extend(states, steps, Work(Pop));
    states, steps := Extend(states, steps, Work(Mark));
    states, steps := Extend(states, steps, Queueing(WatchCheck(0)));
  }

  /** A failing read after the check of the pass. */
  lemma ReadFailureLeavesBehind() returns (states: seq<State>, steps: seq<Step>)
    ensures Execution(states, steps) && LeftBehind(states[|steps|], 0)
    ensures forall k :: 0 <= k < |steps| ==> !StoreFails(steps[k])
  {
    states, steps := PassedWhileReading();
    states, steps := Extend(states, steps, Work(ReadFails));
    states, steps := DropLeavesBehind(states, steps);
  }

  lemma PassedWhileClaimed() returns (states: seq<State>, steps: seq<Step>)
    ensures Execution(states, steps) && PassedOver(states[|steps|]) && states[|steps|].worker == Claimed(0)
    ensures forall k :: 0 <= k < |steps| ==> !StoreFails(steps[k]) && steps[k] != Work(ReadFails)
  {
    states, steps := TwoWaiting(true);
    states, steps := TakeUp(states, steps, 0, [1], map[0 := Fresh(true), 1 := Fresh(true)]);
    states, steps := Extend(states, steps, Row(0, Requeue));
    states, steps := Extend(states, steps, Queueing(WatchList));
    states, steps := Extend(states, steps, Queueing(WatchCheck(0)));
  }

  /** A disconnect that queues the run again between its claim and its send: the revert then finds the run
      queued, and the worker drops the job; no store operation fails. */
  lemma LateRequeueLeavesBehind() returns (states: seq<State>, steps: seq<Step>)
    ensures Execution(states, steps) && LeftBehind(states[|steps|], 0)
    ensures forall k :: 0 <= k < |steps| ==> !StoreFails(steps[k]) && steps[k] != Work(ReadFails)
  {
    states, steps := PassedWhileClaimed();
    states, steps := Extend(states, steps, Work(SendFails));
    states, steps := Extend(states, steps, Work(Revert(true)));
    states, steps := DropLeavesBehind(states, steps);
  }
}
