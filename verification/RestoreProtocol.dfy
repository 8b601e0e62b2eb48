/** The database-restore protocol between server, network and agents as a step system. Every step is
    one atomic action of the program (a store transaction, a registry operation, a message taken from
    a channel, a write to a target); anything may happen between two steps. Messages from agents stay
    deliverable for ever, in any order and any number of times; commands may be lost. */
module RestoreProtocol {
  import opened RestorePhases
  import opened RestoreStore

  // ----- state ---------------------------------------------------------------------------

  /** What a repository worker is doing with the job it popped. */
  datatype Worker =
    | Idle
    | Holding(run: nat)                // read the run, not yet claimed
    | Claimed(run: nat)                // durable queued -> dispatched edge taken
    | Bound(run: nat, stream: nat)     // capability of this very stream checked, about to send to it
    | Waiting(run: nat)                // command sent, polling the run row

  datatype Stream = Stream(agent: nat, open: bool, ready: bool, safe: bool, vouched: bool)

  /** The execution of a run on its agent: what the target held at its start and at its end. */
  datatype Exec =
    | NotStarted
    | Exec(before: Option<Content>, running: bool, disturbed: bool, after: Option<Content>)

  /** Everything that concerns one run. */
  datatype Run = Run(
    row: Row,
    puts: nat,             // how often its command was put on a stream's channel
    wire: set<nat>,        // streams whose channel or network still carries its command
    exec: Exec,
    results: set<Report>,  // results its agent has produced; each can still be delivered
    seen: bool,            // this server process has read the run as queued
    recovering: bool,      // run row failed by recovery, request row still to be written
    byHand: bool,          // concluded by an operator ...
    resolvedLive: bool,    // ... although some agent still ran it or could start it
    misfired: bool)        // ended as not sent by a failed lookup although it was dispatched

  datatype State = State(
    runs: map<nat, Run>,
    workers: map<nat, Worker>,          // by repository
    serving: bool,                      // false while the server recovers from a restart
    current: map<nat, nat>,             // registry: agent -> its current stream
    streams: map<nat, Stream>,
    content: map<nat, Option<Content>>, // by target
    last: map<nat, nat>)                // run that last started on a target

  function WorkerOf(s: State, repo: nat): Worker {
    if repo in s.workers then s.workers[repo] else Idle
  }

  function ContentOf(s: State, target: nat): Option<Content> {
    if target in s.content then s.content[target] else None
  }

  /** A worker has claimed the run and will go on to send its command. */
  predicate Sending(s: State, r: nat)
    requires r in s.runs
  {
    var w := WorkerOf(s, s.runs[r].row.order.repo);
    (w.Claimed? || w.Bound?) && w.run == r
  }

  predicate Executing(u: Run) {
    u.exec.Exec? && u.exec.running
  }

  /** Some agent runs the restore or can still start it. */
  predicate Live(s: State, r: nat)
    requires r in s.runs
  {
    Sending(s, r) || s.runs[r].wire != {} || Executing(s.runs[r])
  }

  // ----- steps ---------------------------------------------------------------------------

  /** Dispatch: what the orchestrator, the job queues and the repository workers do. */
  datatype JobStep =
    | Create(run: nat, order: Order)
    | See(run: nat)
    | Take(repo: nat, run: nat)
    | LookupFails(repo: nat)
    | Drop(repo: nat)
    | Claim(repo: nat)
    | BuildFails(repo: nat)
    | Refuse(repo: nat)
    | Bind(repo: nat)
    | Put(repo: nat)
    | SendFails(repo: nat, reverted: bool)
    | WaitEnds(repo: nat)
    | WaitReadFails(repo: nat)

  /** Connections, and the server going down and coming back. */
  datatype LinkStep =
    | Connect(agent: nat, stream: nat)
    | ReportCapability(stream: nat, safe: bool)
    | Disconnect(agent: nat)
    | Crash
    | Serve

  /** Store writes on one run: agent messages, operators, watchdog, scheduler, restart recovery. */
  datatype RowStep =
    | Accept
    | Progress(phase: Phase)
    | DeliverReport(report: Report)
    | RequestStop
    | CancelQueued
    | GiveUp
    | StaleQueued
    | ResolveByHand
    | RecoverRun
    | RecoverRequest

  /** The network and the agent that holds the run. */
  datatype AgentStep =
    | Lose(stream: nat)
    | Receive(stream: nat)
    | Reject(stream: nat, report: Report)
    | WriteTarget(value: Option<Content>)
    | Conclude(report: Report)
    | Die

  datatype Step =
    | Job(job: JobStep)
    | Link(link: LinkStep)
    | OnRow(run: nat, write: RowStep)
    | OnAgent(run: nat, act: AgentStep)

  /** Phases the server records from messages and disconnects of a run in progress. */
  predicate Interim(p: Phase) {
    p.PhaseRunning? || p.PhasePreBackup? || p.PhaseRestoring? || p.PhaseRollingBack? || p.PhaseManualRecoveryNeeded?
  }

  /** An agent's report of a finished execution: the phase is truthful as long as nobody else wrote to
      the target meanwhile; without a phase it is never a success. */
  predicate HonestReport(rep: Report, e: Exec, now: Option<Content>, chosen: Content)
    requires e.Exec?
  {
    && IsTerminal(rep.status)
    && (rep.phase.None? ==> rep.status != Succeeded)
    && (rep.phase.Some? ==> Reportable(rep.phase.value) && (e.disturbed || Truthful(rep.phase.value, e.before, now, chosen)))
  }

  /** The run the worker of a repository is busy with, if the store knows it. */
  predicate Busy(s: State, repo: nat) {
    var w := WorkerOf(s, repo);
    !w.Idle? && w.run in s.runs && s.runs[w.run].row.order.repo == repo
  }

  function JobOf(s: State, repo: nat): nat
    requires Busy(s, repo)
  {
    WorkerOf(s, repo).run
  }

  /** The capability record of the stream an agent is connected with. */
  predicate Connected(s: State, agent: nat) {
    agent in s.current && s.current[agent] in s.streams
  }

  predicate SafeStream(s: State, agent: nat)
    requires Connected(s, agent)
  {
    s.streams[s.current[agent]].ready && s.streams[s.current[agent]].safe
  }

  predicate JobEnabled(s: State, step: JobStep) {
    match step
    case Create(r, order) => s.serving && r !in s.runs && AllReleased(s)
    case See(r) => s.serving && r in s.runs && s.runs[r].row.status == Queued
    case Take(repo, r) => s.serving && WorkerOf(s, repo).Idle? && r in s.runs && s.runs[r].seen && s.runs[r].row.order.repo == repo
    case LookupFails(repo) => Busy(s, repo) && WorkerOf(s, repo).Holding?
    case Drop(repo) => WorkerOf(s, repo).Holding?
    case Claim(repo) => Busy(s, repo) && WorkerOf(s, repo).Holding? && s.runs[JobOf(s, repo)].row.status == Queued
    case BuildFails(repo) => Busy(s, repo) && WorkerOf(s, repo).Claimed?
    case Refuse(repo) =>
      Busy(s, repo) && WorkerOf(s, repo).Claimed? && Connected(s, AgentOf(s, repo)) && !SafeStream(s, AgentOf(s, repo))
    case Bind(repo) =>
      Busy(s, repo) && WorkerOf(s, repo).Claimed? && Connected(s, AgentOf(s, repo)) && SafeStream(s, AgentOf(s, repo))
    case Put(repo) => Busy(s, repo) && WorkerOf(s, repo).Bound?
    case SendFails(repo, _) =>
      Busy(s, repo) && var w := WorkerOf(s, repo);
      (w.Claimed? && !Connected(s, AgentOf(s, repo))) || (w.Bound? && w.stream in s.streams && !s.streams[w.stream].open)
    case WaitEnds(repo) => Busy(s, repo) && WorkerOf(s, repo).Waiting? && IsTerminal(s.runs[JobOf(s, repo)].row.status)
    case WaitReadFails(repo) => WorkerOf(s, repo).Waiting?
  }

  function AgentOf(s: State, repo: nat): nat
    requires Busy(s, repo)
  {
    s.runs[JobOf(s, repo)].row.order.agent
  }

  predicate LinkEnabled(s: State, step: LinkStep) {
    match step
    case Connect(a, st) => s.serving && st !in s.streams
    // the report was looked up while its stream was registered; it may be recorded after a replacement
    case ReportCapability(st, _) => st in s.streams
    case Disconnect(a) => Connected(s, a)
    case _ => true
  }

  predicate RowEnabled(u: Run, serving: bool, step: RowStep) {
    match step
    case Progress(phase) => serving && Interim(phase)
    case DeliverReport(rep) => serving && rep in u.results
    case CancelQueued => serving && u.seen
    case ResolveByHand => serving && NeedsManualResolution(u.row.phase)
    case RecoverRun => !serving && IsActive(u.row.status)
    case RecoverRequest => !serving && u.recovering
    case _ => serving
  }

  predicate AgentEnabled(u: Run, now: Option<Content>, step: AgentStep) {
    match step
    case Lose(st) => st in u.wire
    case Receive(st) => st in u.wire
    case Reject(st, rep) => st in u.wire && IsTerminal(rep.status) && rep.status != Succeeded && rep.phase.None?
    case WriteTarget(_) => Executing(u)
    case Conclude(rep) => Executing(u) && HonestReport(rep, u.exec, now, u.row.order.chosen)
    case Die => Executing(u)
  }

  function TargetNow(s: State, r: nat): Option<Content>
    requires r in s.runs
  {
    ContentOf(s, s.runs[r].row.order.target)
  }

  predicate Enabled(s: State, step: Step) {
    match step
    case Job(j) => JobEnabled(s, j)
    case Link(l) => LinkEnabled(s, l)
    case OnRow(r, w) => r in s.runs && RowEnabled(s.runs[r], s.serving, w)
    case OnAgent(r, act) => r in s.runs && AgentEnabled(s.runs[r], TargetNow(s, r), act)
  }

  predicate AllReleased(s: State) {
    forall k :: k in s.runs ==> ReleasesOccupancy(s.runs[k].row.phase)
  }

  function SetRun(s: State, r: nat, u: Run): State {
    s.(runs := s.runs[r := u])
  }

  function SetRow(s: State, r: nat, row: Row): State
    requires r in s.runs
  {
    SetRun(s, r, s.runs[r].(row := row))
  }

  function SetWorker(s: State, repo: nat, w: Worker): State {
    s.(workers := s.workers[repo := w])
  }

  /** The write of r is seen by every other execution on the same target. */
  function Disturbed(s: State, r: nat): map<nat, Run>
    requires r in s.runs
  {
    map k | k in s.runs ::
      if k != r && s.runs[k].row.order.target == s.runs[r].row.order.target && Executing(s.runs[k])
      then s.runs[k].(exec := s.runs[k].exec.(disturbed := true)) else s.runs[k]
  }

  function ExecEnds(u: Run, now: Option<Content>): Run
    requires u.exec.Exec?
  {
    u.(exec := u.exec.(running := false, after := now))
  }

  /** The worker puts its job down after writing the row. */
  function Leave(s: State, repo: nat, row: Row): State
    requires Busy(s, repo)
  {
    SetRow(SetWorker(s, repo, Idle), JobOf(s, repo), row)
  }

  /** failRestoreBeforeSend. */
  function FailBeforeSend(row: Row, code: ErrorCode): Row {
    FinishRestoreRun(row, {Queued, Dispatched}, Failed, code, PhaseFailed)
  }

  function RefusalCode(s: State, agent: nat): ErrorCode
    requires Connected(s, agent)
  {
    if s.streams[s.current[agent]].ready then UpgradeRequired else CapabilitiesPending
  }

  function NewRun(order: Order): Run {
    Run(Row(order, Queued, NoError, PhaseQueued), 0, {}, NotStarted, {}, false, false, false, false, false)
  }

  /** The command is on the channel of the stream. */
  function Sent(u: Run, st: nat): Run {
    u.(wire := u.wire + {st}, puts := u.puts + 1)
  }

  function AfterPut(s: State, repo: nat): State
    requires Busy(s, repo) && WorkerOf(s, repo).Bound?
  {
    var w := WorkerOf(s, repo);
    SetRun(SetWorker(s, repo, Waiting(w.run)), w.run, Sent(s.runs[w.run], w.stream))
  }

  function AfterClaim(s: State, repo: nat): State
    requires Busy(s, repo)
  {
    var r := JobOf(s, repo);
    SetWorker(SetRow(s, r, TransitionRun(s.runs[r].row, Queued, Dispatched, NoError)), repo, Claimed(r))
  }

  /** What the server can read of a run before it records it as not sent, and that makes this safe. */
  predicate NotSentForSure(row: Row) {
    row.status != Dispatched || NeedsManualResolution(row.phase)
  }

  function AfterLookupFails(s: State, repo: nat): State
    requires Busy(s, repo)
  {
    var r := JobOf(s, repo);
    var u := s.runs[r];
    SetRun(SetWorker(s, repo, Idle), r,
           u.(row := FailBeforeSend(u.row, InvalidPlan), misfired := u.misfired || !NotSentForSure(u.row)))
  }

  function JobApply(s: State, step: JobStep): State
    requires JobEnabled(s, step)
  {
    match step
    case Create(r, order) => SetRun(s, r, NewRun(order))
    case See(r) => SetRun(s, r, s.runs[r].(seen := true))
    case Take(repo, r) => SetWorker(s, repo, Holding(r))
    case LookupFails(repo) => AfterLookupFails(s, repo)
    case Drop(repo) => SetWorker(s, repo, Idle)
    case Claim(repo) => AfterClaim(s, repo)
    case BuildFails(repo) => Leave(s, repo, TransitionRun(s.runs[JobOf(s, repo)].row, Dispatched, Failed, InvalidPlan))
    case Refuse(repo) => Leave(s, repo, FailBeforeSend(s.runs[JobOf(s, repo)].row, RefusalCode(s, AgentOf(s, repo))))
    case Bind(repo) => SetWorker(s, repo, Bound(JobOf(s, repo), s.current[AgentOf(s, repo)]))
    case Put(repo) => AfterPut(s, repo)
    case SendFails(repo, reverted) =>
      if reverted then Leave(s, repo, TransitionRun(s.runs[JobOf(s, repo)].row, Dispatched, Queued, NoError))
      else SetWorker(s, repo, Idle)
    case WaitEnds(repo) => SetWorker(s, repo, Idle)
    case WaitReadFails(repo) => SetWorker(s, repo, Idle)
  }

  function LinkApply(s: State, step: LinkStep): State
    requires LinkEnabled(s, step)
  {
    match step
    case Connect(a, st) =>
      // a stream the agent had before is kicked
      var kicked := if Connected(s, a) then s.streams[s.current[a] := s.streams[s.current[a]].(open := false)] else s.streams;
      s.(current := s.current[a := st], streams := kicked[st := Stream(a, true, false, false, false)])
    case ReportCapability(st, safe) =>
      s.(streams := s.streams[st := s.streams[st].(ready := true, safe := safe, vouched := s.streams[st].vouched || safe)])
    case Disconnect(a) =>
      s.(current := s.current - {a}, streams := s.streams[s.current[a] := s.streams[s.current[a]].(open := false)])
    case Crash =>
      s.(workers := map[], serving := false, current := map[],
         runs := map k | k in s.runs :: s.runs[k].(seen := false, recovering := false),
         streams := map st | st in s.streams :: s.streams[st].(open := false))
    case Serve => s.(serving := true)
  }

  function RowApply(u: Run, step: RowStep): Run {
    var row := u.row;
    match step
    case Accept => u.(row := TransitionRun(row, Dispatched, Running, row.code))
    case Progress(phase) => u.(row := UpdateRestorePhase(row, phase))
    case DeliverReport(rep) => u.(row := DeliverResult(row, rep))
    case RequestStop => u.(row := UpdateRestorePhase(row, PhaseCancelling))
    case CancelQueued => u.(row := FinishRestoreRun(row, {Queued}, Cancelled, CodeCancelled, PhaseFailed))
    case GiveUp => u.(row := FinishRestoreRun(row, Unfinished, Failed, RunTimeout, PhaseManualRecoveryNeeded))
    case StaleQueued => u.(row := TransitionRun(row, Queued, Failed, OtherCode))
    case ResolveByHand => u.(row := ResolveRestoreRequest(row).GetOr(row), byHand := true)
    case RecoverRun => u.(row := TransitionRun(row, row.status, Failed, AgentDisconnected), recovering := true)
    case RecoverRequest => u.(row := FinishRestoreRun(row, Unfinished, Failed, AgentDisconnected, PhaseManualRecoveryNeeded))
  }

  /** The run after a step of its agent; `now` is what the target holds. */
  function AgentApply(u: Run, now: Option<Content>, step: AgentStep): Run
    requires AgentEnabled(u, now, step)
  {
    match step
    case Lose(st) => u.(wire := u.wire - {st})
    case Receive(st) =>
      // a run already in progress ignores the duplicate
      if Executing(u) then u.(wire := u.wire - {st}) else u.(wire := u.wire - {st}, exec := Exec(now, true, false, None))
    case Reject(st, rep) => u.(wire := u.wire - {st}, results := u.results + {rep})
    case WriteTarget(_) => u
    case Conclude(rep) => ExecEnds(u, now).(results := u.results + {rep})
    case Die => ExecEnds(u, now)
  }

  function Start(s: State, r: nat, u: Run): State {
    SetRun(s, r, u).(last := s.last[u.row.order.target := r])
  }

  function AfterWrite(s: State, r: nat, value: Option<Content>): State
    requires r in s.runs
  {
    s.(content := s.content[s.runs[r].row.order.target := value], runs := Disturbed(s, r))
  }

  /** A store write; a resolution notes whether the run was live. */
  function AfterRow(s: State, r: nat, step: RowStep): Run
    requires r in s.runs
  {
    var u := s.runs[r];
    RowApply(u, step).(resolvedLive := u.resolvedLive || (step.ResolveByHand? && Live(s, r)))
  }

  function Apply(s: State, step: Step): State
    requires Enabled(s, step)
  {
    match step
    case Job(j) => JobApply(s, j)
    case Link(l) => LinkApply(s, l)
    case OnRow(r, w) => SetRun(s, r, AfterRow(s, r, w))
    case OnAgent(r, act) =>
      var u := AgentApply(s.runs[r], TargetNow(s, r), act);
      if act.WriteTarget? then AfterWrite(s, r, act.value)
      else if act.Receive? && !Executing(s.runs[r]) then Start(s, r, u)
      else SetRun(s, r, u)
  }

  ghost predicate Initial(s: State) {
    && s.runs == map[] && s.workers == map[] && s.current == map[] && s.streams == map[] && s.last == map[]
    && s.serving
  }

  ghost predicate StepTo(s: State, step: Step, s': State) {
    Enabled(s, step) && s' == Apply(s, step)
  }

  /** A run of the system: every state follows from the one before by one step. */
  ghost predicate Execution(states: seq<State>, steps: seq<Step>) {
    && |states| == |steps| + 1
    && Initial(states[0])
    && forall i :: 0 <= i < |steps| ==> StepTo(states[i], steps[i], states[i + 1])
  }

  // ----- what must hold ------------------------------------------------------------------

  /** Operators only resolved restores that had stopped, and no lookup failed on a dispatched run. */
  predicate Blameless(s: State) {
    forall r :: r in s.runs ==> !s.runs[r].resolvedLive && !s.runs[r].misfired
  }

  /** The execution is over, and unless somebody else wrote to the target meanwhile the phase is truthful
      about what the execution did to it. */
  predicate Ended(u: Run, phase: Phase) {
    && u.exec.Exec? && !u.exec.running
    && (u.exec.disturbed || Truthful(phase, u.exec.before, u.exec.after, u.row.order.chosen))
  }

  predicate EndedTruthfully(u: Run, phase: Phase) {
    Ended(u, phase) && !u.exec.disturbed
  }

  /** The safety of one restore, whatever happens to the others: once its phase releases the occupancy,
      and neither an operator nor a misfired lookup concluded it, the run has ended, nobody executes it or
      can start it, and either it was never sent and is recorded as failed, or it ended as the phase says. */
  predicate SafeAlone(s: State, r: nat)
    requires r in s.runs
  {
    var u := s.runs[r];
    ReleasesOccupancy(u.row.phase) && !u.byHand && !u.misfired ==>
      && IsTerminal(u.row.status)
      && !Live(s, r)
      && ((u.row.phase == PhaseFailed && u.puts == 0) || Ended(u, u.row.phase))
  }

  /** The safety of one restore among the others: once its phase releases the occupancy the run has ended,
      nobody executes it or can start it, and unless an operator concluded it the phase tells the truth
      about the target, which still holds that content as long as no later restore started on it. */
  predicate SafeRun(s: State, r: nat)
    requires r in s.runs
  {
    var u := s.runs[r];
    var t := u.row.order.target;
    ReleasesOccupancy(u.row.phase) ==>
      && IsTerminal(u.row.status)
      && !Live(s, r)
      && (u.byHand
          || (u.row.phase == PhaseFailed && u.exec.NotStarted?)
          || (EndedTruthfully(u, u.row.phase) && (t in s.last && s.last[t] == r ==> ContentOf(s, t) == u.exec.after)))
  }

  predicate Safe(s: State) {
    forall r :: r in s.runs ==> SafeRun(s, r)
  }

  /** At most one restore is between being sent and finishing, over all agents and repositories. */
  predicate OneLive(s: State) {
    forall q, r :: q in s.runs && r in s.runs && Live(s, q) && Live(s, r) ==> q == r
  }

  /** A command is only ever on a stream of the run's own agent that itself reported the capability. */
  predicate WireVouched(s: State, u: Run) {
    forall st :: st in u.wire ==> st in s.streams && s.streams[st].agent == u.row.order.agent && s.streams[st].vouched
  }

  predicate WiresVouched(s: State) {
    forall r :: r in s.runs ==> WireVouched(s, s.runs[r])
  }

  // ----- the invariant of every execution --------------------------------------------------

  ghost predicate WorkerOk(s: State, repo: nat, w: Worker) {
    w.Idle? ||
    (&& s.serving
     && w.run in s.runs && s.runs[w.run].row.order.repo == repo
     && (w.Holding? ==> s.runs[w.run].seen)
     && (w.Bound? ==>
           w.stream in s.streams && s.streams[w.stream].vouched && s.streams[w.stream].agent == s.runs[w.run].row.order.agent))
  }

  ghost predicate WorkersOk(s: State) {
    forall repo :: repo in s.workers ==> WorkerOk(s, repo, s.workers[repo])
  }

  ghost predicate StreamsOk(s: State) {
    && (forall a :: a in s.current ==> s.current[a] in s.streams && s.streams[s.current[a]].agent == a)
    && (forall st :: st in s.streams && s.streams[st].safe ==> s.streams[st].vouched)
  }

  /** A run's command exists at most once: not sent, on one wire, executing, or over. */
  ghost predicate OnceOnly(u: Run, sending: bool) {
    && u.puts <= 1
    && (sending ==> u.puts == 0 && u.row.status != Queued)
    && (u.row.status == Queued ==> u.puts == 0)
    && (u.puts == 0 ==> u.wire == {} && u.exec.NotStarted? && u.results == {})
    && (u.wire != {} ==> u.exec.NotStarted? && u.results == {})
    && (forall a, b :: a in u.wire && b in u.wire ==> a == b)
    && (Executing(u) ==> u.results == {})
  }

  ghost predicate ResultOk(u: Run, rep: Report) {
    && IsTerminal(rep.status)
    && (rep.phase.None? ==> rep.status != Succeeded)
    && (rep.phase.Some? ==> Reportable(rep.phase.value) && Ended(u, rep.phase.value))
  }

  ghost predicate ResultsOk(u: Run) {
    forall rep :: rep in u.results ==> ResultOk(u, rep)
  }

  ghost predicate Stopped(u: Run, sending: bool) {
    !sending && u.wire == {} && !Executing(u)
  }

  ghost predicate RowOk(u: Run, sending: bool) {
    && (u.byHand ==> u.row.phase.PhaseManualRecoveryDone? && IsTerminal(u.row.status) && (u.resolvedLive || Stopped(u, sending)))
    && (sending && IsTerminal(u.row.status) ==> IsTerminalPhase(u.row.phase))
    && (u.seen ==> u.puts == 0 || IsTerminalPhase(u.row.phase) || IsActive(u.row.status))
    && (ReleasesOccupancy(u.row.phase) ==>
          && IsTerminal(u.row.status)
          && (u.byHand || u.misfired
              || (Stopped(u, sending) && ((u.row.phase == PhaseFailed && u.puts == 0) || Ended(u, u.row.phase)))))
  }

  ghost predicate RunOk(u: Run, sending: bool) {
    OnceOnly(u, sending) && ResultsOk(u) && RowOk(u, sending)
  }

  /** What holds of one run in every state. */
  ghost predicate RunFit(s: State, r: nat)
    requires r in s.runs
  {
    && RunOk(s.runs[r], Sending(s, r)) && WireVouched(s, s.runs[r])
    && (s.runs[r].seen ==> s.serving)
  }

  ghost predicate Base(s: State) {
    WorkersOk(s) && StreamsOk(s) && forall r :: r in s.runs ==> RunFit(s, r)
  }

  lemma BaseOf(s: State, r: nat)
    requires Base(s) && r in s.runs
    ensures RunFit(s, r)
  {
  }

  lemma WorkerInv(s: State, repo: nat)
    requires Base(s)
    ensures WorkerOk(s, repo, WorkerOf(s, repo))
  {
  }

  /** Replacing one run keeps the invariant when the new one is fit. */
  lemma RunStep(s: State, r: nat, u: Run)
    requires Base(s) && r in s.runs && u.row.order == s.runs[r].row.order
    requires RunOk(u, Sending(s, r)) && WireVouched(s, u)
    requires (u.seen ==> s.serving) && (s.runs[r].seen ==> u.seen)
    ensures Base(SetRun(s, r, u))
  {
    var s' := SetRun(s, r, u);
    forall k | k in s'.runs
      ensures RunFit(s', k)
    {
      if k != r { BaseOf(s, k); }
    }
    forall repo | repo in s'.workers
      ensures WorkerOk(s', repo, s'.workers[repo])
    {
      WorkerInv(s, repo);
    }
  }

  /** Moving a worker keeps the invariant when the worker is fit and whichever run it now sends may be
      sent. */
  lemma WorkerStep(s: State, repo: nat, w: Worker)
    requires Base(s) && WorkerOk(s, repo, w)
    requires w.Claimed? || w.Bound? ==> RunOk(s.runs[w.run], true)
    ensures Base(SetWorker(s, repo, w))
  {
    var s' := SetWorker(s, repo, w);
    forall k | k in s'.runs
      ensures RunFit(s', k)
    {
      BaseOf(s, k);
    }
    forall q | q in s'.workers
      ensures WorkerOk(s', q, s'.workers[q])
    {
      WorkerInv(s, q);
    }
  }

  lemma IdleKeeps(s: State, repo: nat)
    requires Base(s)
    ensures Base(SetWorker(s, repo, Idle))
  {
    WorkerStep(s, repo, Idle);
  }

  lemma CreateKeeps(s: State, r: nat, order: Order)
    requires Base(s) && r !in s.runs
    ensures Base(SetRun(s, r, NewRun(order)))
  {
    var s' := SetRun(s, r, NewRun(order));
    WorkerInv(s, order.repo);
    forall k | k in s'.runs
      ensures RunFit(s', k)
    {
      if k != r { BaseOf(s, k); }
    }
    forall repo | repo in s'.workers
      ensures WorkerOk(s', repo, s'.workers[repo])
    {
      WorkerInv(s, repo);
    }
  }

  lemma SentOk(u: Run, st: nat)
    requires RunOk(u, true)
    ensures RunOk(Sent(u, st), false) && Sent(u, st).wire == {st} && u.exec.NotStarted?
  {
    assert Sent(u, st).wire == {st} && Sent(u, st).results == {};
  }

  /** The command goes to the stream that was checked, whatever happened to the registry since. */
  lemma PutKeeps(s: State, repo: nat)
    requires Base(s) && Busy(s, repo) && WorkerOf(s, repo).Bound?
    ensures Base(AfterPut(s, repo))
  {
    var w := WorkerOf(s, repo);
    WorkerInv(s, repo);
    BaseOf(s, w.run);
    SentOk(s.runs[w.run], w.stream);
    WorkerStep(s, repo, Waiting(w.run));
    RunStep(SetWorker(s, repo, Waiting(w.run)), w.run, Sent(s.runs[w.run], w.stream));
  }

  lemma ClaimKeeps(s: State, repo: nat)
    requires Base(s) && Busy(s, repo) && WorkerOf(s, repo).Holding? && s.runs[JobOf(s, repo)].row.status == Queued
    ensures Base(AfterClaim(s, repo))
  {
    var r := JobOf(s, repo);
    var u := s.runs[r].(row := TransitionRun(s.runs[r].row, Queued, Dispatched, NoError));
    WorkerInv(s, repo);
    BaseOf(s, r);
    RunStep(s, r, u);
    WorkerStep(SetRun(s, r, u), repo, Claimed(r));
  }

  lemma BindKeeps(s: State, repo: nat)
    requires Base(s) && Busy(s, repo) && WorkerOf(s, repo).Claimed? && Connected(s, AgentOf(s, repo)) && SafeStream(s, AgentOf(s, repo))
    ensures Base(SetWorker(s, repo, Bound(JobOf(s, repo), s.current[AgentOf(s, repo)])))
  {
    WorkerInv(s, repo);
    BaseOf(s, JobOf(s, repo));
    WorkerStep(s, repo, Bound(JobOf(s, repo), s.current[AgentOf(s, repo)]));
  }

  /** The worker puts its job down with a run that is fit without it. */
  lemma LeaveKeeps(s: State, repo: nat, u: Run)
    requires Base(s) && Busy(s, repo) && u == s.runs[JobOf(s, repo)].(row := u.row, misfired := u.misfired)
    requires u.row.order == s.runs[JobOf(s, repo)].row.order && RunOk(u, false)
    ensures Base(SetRun(SetWorker(s, repo, Idle), JobOf(s, repo), u))
  {
    BaseOf(s, JobOf(s, repo));
    IdleKeeps(s, repo);
    RunStep(SetWorker(s, repo, Idle), JobOf(s, repo), u);
  }

  /** A claimed job whose command was not sent may go back to the queue or fail. */
  lemma UnsentKeeps(s: State, repo: nat, row: Row)
    requires Base(s) && Busy(s, repo) && (WorkerOf(s, repo).Claimed? || WorkerOf(s, repo).Bound?)
    requires var was := s.runs[JobOf(s, repo)].row;
      || row == TransitionRun(was, Dispatched, Queued, NoError)
      || row == TransitionRun(was, Dispatched, Failed, InvalidPlan)
      || (exists code :: row == FailBeforeSend(was, code))
    ensures Base(Leave(s, repo, row))
  {
    BaseOf(s, JobOf(s, repo));
    LeaveKeeps(s, repo, s.runs[JobOf(s, repo)].(row := row));
  }

  lemma LookupKeeps(s: State, repo: nat)
    requires Base(s) && Busy(s, repo) && WorkerOf(s, repo).Holding?
    ensures Base(AfterLookupFails(s, repo))
  {
    WorkerInv(s, repo);
    BaseOf(s, JobOf(s, repo));
    LeaveKeeps(s, repo, AfterLookupFails(s, repo).runs[JobOf(s, repo)]);
  }

  lemma JobStepKeeps(s: State, step: JobStep)
    requires Base(s) && JobEnabled(s, step)
    ensures Base(JobApply(s, step))
  {
    match step
    case Create(r, order) => CreateKeeps(s, r, order);
    case See(r) => BaseOf(s, r); RunStep(s, r, s.runs[r].(seen := true));
    case Take(repo, r) => WorkerStep(s, repo, Holding(r));
    case LookupFails(repo) => LookupKeeps(s, repo);
    case Claim(repo) => ClaimKeeps(s, repo);
    case BuildFails(repo) => UnsentKeeps(s, repo, TransitionRun(s.runs[JobOf(s, repo)].row, Dispatched, Failed, InvalidPlan));
    case Refuse(repo) => UnsentKeeps(s, repo, FailBeforeSend(s.runs[JobOf(s, repo)].row, RefusalCode(s, AgentOf(s, repo))));
    case Bind(repo) => BindKeeps(s, repo);
    case Put(repo) => PutKeeps(s, repo);
    case SendFails(repo, reverted) =>
      UnsentKeeps(s, repo, TransitionRun(s.runs[JobOf(s, repo)].row, Dispatched, Queued, NoError));
      IdleKeeps(s, repo);
    case Drop(repo) => IdleKeeps(s, repo);
    case WaitEnds(repo) => IdleKeeps(s, repo);
    case WaitReadFails(repo) => IdleKeeps(s, repo);
  }

  /** Streams are never forgotten and never change agent or lose their voucher. */
  ghost predicate StreamsGrow(before: map<nat, Stream>, after: map<nat, Stream>) {
    forall st :: st in before ==> st in after && after[st].agent == before[st].agent && (before[st].vouched ==> after[st].vouched)
  }

  lemma StreamsStep(s: State, current: map<nat, nat>, streams: map<nat, Stream>)
    requires Base(s) && StreamsGrow(s.streams, streams)
    requires StreamsOk(s.(current := current, streams := streams))
    ensures Base(s.(current := current, streams := streams))
  {
    var s' := s.(current := current, streams := streams);
    forall k | k in s'.runs
      ensures RunFit(s', k)
    {
      BaseOf(s, k);
    }
    forall repo | repo in s'.workers
      ensures WorkerOk(s', repo, s'.workers[repo])
    {
      WorkerInv(s, repo);
    }
  }

  lemma CrashKeeps(s: State)
    requires Base(s)
    ensures Base(LinkApply(s, Crash))
  {
    var s' := LinkApply(s, Crash);
    forall k | k in s'.runs
      ensures RunFit(s', k)
    {
      BaseOf(s, k);
    }
  }

  lemma ServeKeeps(s: State)
    requires Base(s)
    ensures Base(s.(serving := true))
  {
    var s' := s.(serving := true);
    forall k | k in s'.runs
      ensures RunFit(s', k)
    {
      BaseOf(s, k);
    }
    forall repo | repo in s'.workers
      ensures WorkerOk(s', repo, s'.workers[repo])
    {
      WorkerInv(s, repo);
    }
  }

  lemma LinkStepKeeps(s: State, step: LinkStep)
    requires Base(s) && LinkEnabled(s, step)
    ensures Base(LinkApply(s, step))
  {
    match step
    case Crash => CrashKeeps(s);
    case Serve => ServeKeeps(s);
    case _ => StreamsStep(s, LinkApply(s, step).current, LinkApply(s, step).streams);
  }

  /** What every store write leaves alone, and what it may do to the conclusions of a row. */
  lemma RowApplyFrame(u: Run, serving: bool, step: RowStep)
    requires RowEnabled(u, serving, step) && (step.DeliverReport? ==> IsTerminal(step.report.status))
    ensures var u' := RowApply(u, step);
      && u'.row.order == u.row.order && u'.puts == u.puts && u'.wire == u.wire && u'.exec == u.exec
      && u'.results == u.results && u'.seen == u.seen && u'.misfired == u.misfired && u'.resolvedLive == u.resolvedLive
      && (u'.row.status == Queued ==> u.row.status == Queued)
      && (IsTerminal(u.row.status) ==> u'.row.status == u.row.status)
      && (IsTerminalPhase(u.row.phase) ==> IsTerminalPhase(u'.row.phase))
      && (ReleasesOccupancy(u.row.phase) ==> u'.row.phase == u.row.phase)
  {
  }

  /** The store writes keep a run fit, whatever their order. */
  lemma RowApplyOk(u: Run, sending: bool, serving: bool, step: RowStep, resolvedLive: bool)
    requires RunOk(u, sending) && RowEnabled(u, serving, step) && (u.seen || sending ==> serving)
    requires u.resolvedLive ==> resolvedLive
    requires step.ResolveByHand? && !resolvedLive ==> Stopped(u, sending)
    ensures RunOk(RowApply(u, step).(resolvedLive := resolvedLive), sending)
  {
    var u' := RowApply(u, step).(resolvedLive := resolvedLive);
    if step.DeliverReport? {
      assert ResultOk(u, step.report);
    }
    RowApplyFrame(u, serving, step);
    assert ResultsOk(u') by {
      forall rep | rep in u'.results
        ensures ResultOk(u', rep)
      {
        assert ResultOk(u, rep);
      }
    }
    assert OnceOnly(u', sending);
  }

  lemma RowStepKeeps(s: State, r: nat, step: RowStep)
    requires Base(s) && r in s.runs && RowEnabled(s.runs[r], s.serving, step)
    ensures Base(SetRun(s, r, AfterRow(s, r, step)))
  {
    BaseOf(s, r);
    WorkerInv(s, s.runs[r].row.order.repo);
    if step.DeliverReport? {
      assert ResultOk(s.runs[r], step.report);
    }
    RowApplyFrame(s.runs[r], s.serving, step);
    RowApplyOk(s.runs[r], Sending(s, r), s.serving, step, AfterRow(s, r, step).resolvedLive);
    RunStep(s, r, AfterRow(s, r, step));
  }

  lemma AgentApplyOk(u: Run, sending: bool, now: Option<Content>, act: AgentStep)
    requires RunOk(u, sending) && AgentEnabled(u, now, act)
    ensures RunOk(AgentApply(u, now, act), sending)
  {
    var u' := AgentApply(u, now, act);
    match act
    case Lose(st) => assert u.wire - {st} == {};
    case Receive(st) => assert u.wire - {st} == {};
    case Reject(st, _) => assert u.wire - {st} == {};
    case _ =>
  }

  lemma AgentStepKeeps(s: State, r: nat, act: AgentStep)
    requires Base(s) && r in s.runs && AgentEnabled(s.runs[r], TargetNow(s, r), act)
    ensures Base(SetRun(s, r, AgentApply(s.runs[r], TargetNow(s, r), act)))
  {
    BaseOf(s, r);
    AgentApplyOk(s.runs[r], Sending(s, r), TargetNow(s, r), act);
    RunStep(s, r, AgentApply(s.runs[r], TargetNow(s, r), act));
  }

  /** Nothing of this invariant is about the targets. */
  lemma TargetsAside(s: State, content: map<nat, Option<Content>>, last: map<nat, nat>)
    requires Base(s)
    ensures Base(s.(content := content, last := last))
  {
    var s' := s.(content := content, last := last);
    forall k | k in s'.runs
      ensures RunFit(s', k)
    {
      BaseOf(s, k);
    }
    forall repo | repo in s'.workers
      ensures WorkerOk(s', repo, s'.workers[repo])
    {
      WorkerInv(s, repo);
    }
  }

  lemma DisturbedKeeps(s: State, r: nat)
    requires Base(s) && r in s.runs
    ensures Base(s.(runs := Disturbed(s, r)))
  {
    var s' := s.(runs := Disturbed(s, r));
    forall k | k in s'.runs
      ensures RunFit(s', k)
    {
      BaseOf(s, k);
    }
    forall repo | repo in s'.workers
      ensures WorkerOk(s', repo, s'.workers[repo])
    {
      WorkerInv(s, repo);
    }
  }

  lemma StepKeeps(s: State, step: Step)
    requires Base(s) && Enabled(s, step)
    ensures Base(Apply(s, step))
  {
    match step
    case Job(j) => JobStepKeeps(s, j);
    case Link(l) => LinkStepKeeps(s, l);
    case OnRow(r, w) => RowStepKeeps(s, r, w);
    case OnAgent(r, act) =>
      AgentStepKeeps(s, r, act);
      if act.WriteTarget? {
        DisturbedKeeps(s, r);
        TargetsAside(s.(runs := Disturbed(s, r)), Apply(s, step).content, s.last);
      } else if act.Receive? {
        TargetsAside(SetRun(s, r, AgentApply(s.runs[r], TargetNow(s, r), act)), s.content, Apply(s, step).last);
      }
  }

  lemma {:induction false} ExecutionBase(states: seq<State>, steps: seq<Step>, i: nat)
    requires Execution(states, steps) && i < |states|
    ensures Base(states[i])
    decreases i
  {
    if i > 0 {
      ExecutionBase(states, steps, i - 1);
      assert StepTo(states[i - 1], steps[i - 1], states[i]);
      StepKeeps(states[i - 1], steps[i - 1]);
    }
  }

  // ----- results that need no hypothesis ---------------------------------------------------

  /** In every state of every execution: commands are only on streams of the run's agent that reported the
      capability themselves, never on a replacement, and no run's command was put on a channel twice. */
  lemma SentOnceAndVouched(states: seq<State>, steps: seq<Step>, i: nat)
    requires Execution(states, steps) && i < |states|
    ensures WiresVouched(states[i])
    ensures forall r :: r in states[i].runs ==> states[i].runs[r].puts <= 1
  {
    ExecutionBase(states, steps, i);
    forall r | r in states[i].runs
      ensures WireVouched(states[i], states[i].runs[r]) && states[i].runs[r].puts <= 1
    {
      BaseOf(states[i], r);
    }
  }

  /** In every state of every execution every restore is safe by itself, whatever operators, lookups and
      other restores did. */
  lemma EachSafeAlone(states: seq<State>, steps: seq<Step>, i: nat, r: nat)
    requires Execution(states, steps) && i < |states| && r in states[i].runs
    ensures SafeAlone(states[i], r)
  {
    ExecutionBase(states, steps, i);
    BaseOf(states[i], r);
  }

  // ----- one restore at a time -----------------------------------------------------------

  ghost predicate Occupancy(s: State) {
    forall q, r :: q in s.runs && r in s.runs && !ReleasesOccupancy(s.runs[q].row.phase) && !ReleasesOccupancy(s.runs[r].row.phase) ==> q == r
  }

  /** The target holds what the run that last started on it left, unless that run still executes. */
  ghost predicate TargetOk(s: State, u: Run, r: nat) {
    var t := u.row.order.target;
    u.exec.Exec? ==>
      && !u.exec.disturbed && t in s.last
      && (u.exec.running ==> s.last[t] == r)
      && (!u.exec.running && s.last[t] == r ==> ContentOf(s, t) == u.exec.after)
  }

  ghost predicate Sole(s: State) {
    Occupancy(s) && forall r :: r in s.runs ==> TargetOk(s, s.runs[r], r)
  }

  /** A live run occupies; so no two runs are live. */
  lemma OnlyOneLive(s: State, r: nat)
    requires Base(s) && Blameless(s) && Occupancy(s) && r in s.runs && Live(s, r)
    ensures !ReleasesOccupancy(s.runs[r].row.phase) && forall k :: k in s.runs && k != r ==> !Live(s, k)
  {
    BaseOf(s, r);
    forall k | k in s.runs && k != r
      ensures !Live(s, k)
    {
      BaseOf(s, k);
    }
  }

  /** A run goes on without touching a target or taking back a release. */
  predicate GoesOn(u: Run, u': Run) {
    u'.exec == u.exec && u'.row.order == u.row.order && (ReleasesOccupancy(u.row.phase) ==> ReleasesOccupancy(u'.row.phase))
  }

  lemma SoleFrame(s: State, s': State)
    requires Sole(s) && s'.runs.Keys == s.runs.Keys && s'.content == s.content && s'.last == s.last
    requires forall k :: k in s.runs ==> GoesOn(s.runs[k], s'.runs[k])
    ensures Sole(s')
  {
    forall q, r | q in s'.runs && r in s'.runs && !ReleasesOccupancy(s'.runs[q].row.phase) && !ReleasesOccupancy(s'.runs[r].row.phase)
      ensures q == r
    {
      assert GoesOn(s.runs[q], s'.runs[q]) && GoesOn(s.runs[r], s'.runs[r]);
    }
    forall r | r in s'.runs
      ensures TargetOk(s', s'.runs[r], r)
    {
      assert GoesOn(s.runs[r], s'.runs[r]) && TargetOk(s, s.runs[r], r);
    }
  }

  /** Blame is never taken back. */
  predicate KeepsBlame(u: Run, u': Run) {
    (u.resolvedLive ==> u'.resolvedLive) && (u.misfired ==> u'.misfired)
  }

  lemma WritesGoOn(row: Row, from: Status, to: Status, code: ErrorCode)
    ensures var after := TransitionRun(row, from, to, code); after.order == row.order && after.phase == row.phase
    ensures var after := FailBeforeSend(row, code);
      after.order == row.order && (ReleasesOccupancy(row.phase) ==> ReleasesOccupancy(after.phase))
  {
  }

  lemma JobStepRun(s: State, step: JobStep, k: nat)
    requires JobEnabled(s, step) && k in s.runs
    ensures var s' := JobApply(s, step); k in s'.runs && GoesOn(s.runs[k], s'.runs[k]) && KeepsBlame(s.runs[k], s'.runs[k])
  {
    match step
    case LookupFails(repo) => WritesGoOn(s.runs[JobOf(s, repo)].row, Dispatched, Failed, InvalidPlan);
    case BuildFails(repo) => WritesGoOn(s.runs[JobOf(s, repo)].row, Dispatched, Failed, InvalidPlan);
    case Refuse(repo) => WritesGoOn(s.runs[JobOf(s, repo)].row, Dispatched, Failed, RefusalCode(s, AgentOf(s, repo)));
    case SendFails(repo, _) => WritesGoOn(s.runs[JobOf(s, repo)].row, Dispatched, Queued, NoError);
    case Claim(repo) => WritesGoOn(s.runs[JobOf(s, repo)].row, Queued, Dispatched, NoError);
    case _ =>
  }

  lemma JobStepTargets(s: State, step: JobStep)
    requires JobEnabled(s, step) && !step.Create?
    ensures var s' := JobApply(s, step); s'.content == s.content && s'.last == s.last && s'.runs.Keys == s.runs.Keys
  {
    match step
    case See(_) =>
    case Take(_, _) =>
    case LookupFails(repo) => assert AfterLookupFails(s, repo).runs.Keys == s.runs.Keys;
    case Claim(repo) => assert AfterClaim(s, repo).runs.Keys == s.runs.Keys;
    case Put(repo) => assert AfterPut(s, repo).runs.Keys == s.runs.Keys;
    case _ =>
  }

  lemma JobStepSole(s: State, step: JobStep)
    requires Sole(s) && JobEnabled(s, step)
    ensures Sole(JobApply(s, step))
  {
    if step.Create? {
      CreateSole(s, step.run, step.order);
    } else {
      JobStepTargets(s, step);
      forall k | k in s.runs
        ensures GoesOn(s.runs[k], JobApply(s, step).runs[k])
      {
        JobStepRun(s, step, k);
      }
      SoleFrame(s, JobApply(s, step));
    }
  }

  lemma CreateSole(s: State, r: nat, order: Order)
    requires Sole(s) && r !in s.runs && AllReleased(s)
    ensures Sole(SetRun(s, r, NewRun(order)))
  {
    var s' := SetRun(s, r, NewRun(order));
    forall k | k in s'.runs
      ensures TargetOk(s', s'.runs[k], k)
    {
      assert k != r ==> TargetOk(s, s.runs[k], k);
    }
  }

  lemma RowStepSole(s: State, r: nat, step: RowStep)
    requires Base(s) && Sole(s) && r in s.runs && RowEnabled(s.runs[r], s.serving, step)
    ensures Sole(SetRun(s, r, AfterRow(s, r, step)))
  {
    BaseOf(s, r);
    if step.DeliverReport? {
      assert ResultOk(s.runs[r], step.report);
    }
    RowApplyFrame(s.runs[r], s.serving, step);
    SoleFrame(s, SetRun(s, r, AfterRow(s, r, step)));
  }

  lemma AgentApplyFrame(u: Run, now: Option<Content>, act: AgentStep)
    requires AgentEnabled(u, now, act)
    ensures var u' := AgentApply(u, now, act);
      u'.row == u.row && KeepsBlame(u, u') && ((act.Lose? || act.Reject?) ==> u'.exec == u.exec)
  {
  }

  lemma AgentStepRun(s: State, r: nat, act: AgentStep, k: nat)
    requires Enabled(s, OnAgent(r, act)) && k in s.runs
    ensures var s' := Apply(s, OnAgent(r, act));
      && k in s'.runs && s'.runs.Keys == s.runs.Keys
      && s'.runs[k].row == s.runs[k].row && KeepsBlame(s.runs[k], s'.runs[k])
      && ((act.Lose? || act.Reject?) ==> s'.runs[k].exec == s.runs[k].exec)
  {
    AgentApplyFrame(s.runs[r], TargetNow(s, r), act);
  }

  /** Nothing else executes when a run starts, writes or ends. */
  lemma AgentTarget(s: State, r: nat, act: AgentStep, k: nat)
    requires Enabled(s, OnAgent(r, act)) && k in s.runs && !act.Lose? && !act.Reject?
    requires TargetOk(s, s.runs[k], k) && TargetOk(s, s.runs[r], r)
    requires forall q :: q in s.runs && q != r ==> !Live(s, q)
    ensures var s' := Apply(s, OnAgent(r, act)); k in s'.runs && TargetOk(s', s'.runs[k], k)
  {
    assert k != r ==> !Executing(s.runs[k]);
  }

  lemma AgentStepSole(s: State, r: nat, act: AgentStep)
    requires Base(s) && Blameless(s) && Sole(s) && Enabled(s, OnAgent(r, act))
    ensures Sole(Apply(s, OnAgent(r, act)))
  {
    var s' := Apply(s, OnAgent(r, act));
    OnlyOneLive(s, r);
    forall k | k in s.runs
      ensures k in s'.runs && s'.runs.Keys == s.runs.Keys && s'.runs[k].row == s.runs[k].row
      ensures (act.Lose? || act.Reject?) ==> GoesOn(s.runs[k], s'.runs[k])
      ensures !(act.Lose? || act.Reject?) ==> TargetOk(s', s'.runs[k], k)
    {
      AgentStepRun(s, r, act, k);
      assert TargetOk(s, s.runs[k], k) && TargetOk(s, s.runs[r], r);
      if !(act.Lose? || act.Reject?) {
        AgentTarget(s, r, act, k);
      }
    }
    if act.Lose? || act.Reject? {
      SoleFrame(s, s');
    }
  }

  lemma LinkStepSole(s: State, step: LinkStep)
    requires Sole(s) && LinkEnabled(s, step)
    ensures Sole(LinkApply(s, step))
  {
    SoleFrame(s, LinkApply(s, step));
  }

  lemma StepSole(s: State, step: Step)
    requires Base(s) && Blameless(s) && Sole(s) && Enabled(s, step)
    ensures Sole(Apply(s, step))
  {
    match step
    case Job(j) => JobStepSole(s, j);
    case Link(l) => LinkStepSole(s, l);
    case OnRow(r, w) => RowStepSole(s, r, w);
    case OnAgent(r, act) => AgentStepSole(s, r, act);
  }

  lemma LinkStepRun(s: State, step: LinkStep, k: nat)
    requires LinkEnabled(s, step) && k in s.runs
    ensures var s' := LinkApply(s, step); k in s'.runs && KeepsBlame(s.runs[k], s'.runs[k])
  {
  }

  /** Runs are never forgotten. */
  lemma StepRun(s: State, step: Step, k: nat)
    requires Enabled(s, step) && k in s.runs
    ensures k in Apply(s, step).runs && KeepsBlame(s.runs[k], Apply(s, step).runs[k])
  {
    match step
    case Job(j) => JobStepRun(s, j, k);
    case Link(l) => LinkStepRun(s, l, k);
    case OnRow(r, w) =>
    case OnAgent(r, act) => AgentStepRun(s, r, act, k);
  }

  lemma BlameStays(s: State, step: Step)
    requires Enabled(s, step) && Blameless(Apply(s, step))
    ensures Blameless(s)
  {
    forall r | r in s.runs
      ensures !s.runs[r].resolvedLive && !s.runs[r].misfired
    {
      StepRun(s, step, r);
    }
  }

  lemma {:induction false} ExecutionSole(states: seq<State>, steps: seq<Step>, i: nat)
    requires Execution(states, steps) && i < |states| && Blameless(states[i])
    ensures Sole(states[i])
    decreases i
  {
    if i > 0 {
      assert StepTo(states[i - 1], steps[i - 1], states[i]);
      BlameStays(states[i - 1], steps[i - 1]);
      ExecutionBase(states, steps, i - 1);
      ExecutionSole(states, steps, i - 1);
      StepSole(states[i - 1], steps[i - 1]);
    }
  }

  /** The main theorem on the system as a whole: in every state of every execution in which operators only
      resolved restores that had stopped and no lookup failed on a dispatched run, at most one restore is
      live, and a released restore is over and tells the truth about what its target now holds. */
  lemma RestoreSafety(states: seq<State>, steps: seq<Step>, i: nat)
    requires Execution(states, steps) && i < |states| && Blameless(states[i])
    ensures Safe(states[i]) && OneLive(states[i])
  {
    var s := states[i];
    ExecutionBase(states, steps, i);
    ExecutionSole(states, steps, i);
    forall r | r in s.runs
      ensures SafeRun(s, r)
      ensures Live(s, r) ==> !ReleasesOccupancy(s.runs[r].row.phase)
    {
      BaseOf(s, r);
      assert TargetOk(s, s.runs[r], r);
    }
  }

  // ----- what the server can know before a failed lookup -----------------------------------

  /** The server's own memory and its store are the same. */
  predicate SameToServer(s: State, t: State) {
    && s.serving == t.serving && s.workers == t.workers && s.current == t.current && s.streams == t.streams
    && s.runs.Keys == t.runs.Keys
    && forall r :: r in s.runs ==> s.runs[r].row == t.runs[r].row && s.runs[r].seen == t.runs[r].seen
  }

  /** The failing lookup releases a restore that some agent executes or can start. */
  predicate ReleasesLive(s: State, repo: nat)
    requires JobEnabled(s, LookupFails(repo))
  {
    var r := JobOf(s, repo);
    var s' := AfterLookupFails(s, repo);
    !ReleasesOccupancy(s.runs[r].row.phase) && ReleasesOccupancy(s'.runs[r].row.phase) && Live(s', r)
  }

  lemma NeverSent(u: Run)
    requires RunOk(u, false) && u.seen && NotSentForSure(u.row)
    requires !ReleasesOccupancy(u.row.phase) && ReleasesOccupancy(FailBeforeSend(u.row, InvalidPlan).phase)
    ensures u.puts == 0
  {
  }

  lemma LookupLeaves(s: State, repo: nat)
    requires Busy(s, repo)
    ensures var u := s.runs[JobOf(s, repo)];
      var s' := AfterLookupFails(s, repo);
      && JobOf(s, repo) in s'.runs
      && s'.runs[JobOf(s, repo)] == u.(row := FailBeforeSend(u.row, InvalidPlan), misfired := u.misfired || !NotSentForSure(u.row))
      && (Live(s', JobOf(s, repo)) <==> u.wire != {} || Executing(u))
  {
  }

  lemma GuardSuffices(s: State, repo: nat)
    requires Base(s) && JobEnabled(s, LookupFails(repo)) && NotSentForSure(s.runs[JobOf(s, repo)].row)
    ensures !ReleasesLive(s, repo)
    ensures AfterLookupFails(s, repo).runs[JobOf(s, repo)].misfired == s.runs[JobOf(s, repo)].misfired
  {
    var u := s.runs[JobOf(s, repo)];
    assert RunOk(u, false) && u.seen by {
      WorkerInv(s, repo);
      BaseOf(s, JobOf(s, repo));
    }
    LookupLeaves(s, repo);
    if !ReleasesOccupancy(u.row.phase) && ReleasesOccupancy(FailBeforeSend(u.row, InvalidPlan).phase) {
      NeverSent(u);
    }
  }

  /** The same to the server, but the agent executes the run. */
  function Twin(s: State, r: nat): State
    requires r in s.runs
  {
    SetRun(s, r, s.runs[r].(puts := 1, wire := {}, results := {}, exec := Exec(None, true, false, None)))
  }

  lemma TwinIsBase(s: State, r: nat)
    requires Base(s) && r in s.runs && !Sending(s, r) && s.runs[r].row.status != Queued
    requires !ReleasesOccupancy(s.runs[r].row.phase) && (IsActive(s.runs[r].row.status) || IsTerminalPhase(s.runs[r].row.phase))
    ensures Base(Twin(s, r)) && SameToServer(s, Twin(s, r)) && Executing(Twin(s, r).runs[r])
  {
    BaseOf(s, r);
    RunStep(s, r, Twin(s, r).runs[r]);
  }

  /** Recording a run as not sent because its lookup failed is safe in every situation that looks the same
      to the server exactly when its row is not dispatched or waits for an operator. */
  lemma LookupFailureExact(s: State, repo: nat)
    requires Base(s) && JobEnabled(s, LookupFails(repo))
    ensures (forall t :: Base(t) && SameToServer(s, t) && JobEnabled(t, LookupFails(repo)) ==> !ReleasesLive(t, repo))
      <==> NotSentForSure(s.runs[JobOf(s, repo)].row)
  {
    var r := JobOf(s, repo);
    if NotSentForSure(s.runs[r].row) {
      forall t | Base(t) && SameToServer(s, t) && JobEnabled(t, LookupFails(repo))
        ensures !ReleasesLive(t, repo)
      {
        GuardSuffices(t, repo);
      }
    } else {
      WorkerInv(s, repo);
      BaseOf(s, r);
      TwinIsBase(s, r);
      var t := Twin(s, r);
      assert AfterLookupFails(t, repo).runs[r].row.phase == PhaseFailed && Executing(AfterLookupFails(t, repo).runs[r]);
      assert ReleasesLive(t, repo);
    }
  }

  // ----- what an operator can know before a resolution -------------------------------------

  /** The server's view, how often the command of the run was put, and what its agent has reported. */
  predicate SameEvidence(s: State, t: State, r: nat)
    requires r in s.runs
  {
    SameToServer(s, t) && t.runs[r].puts == s.runs[r].puts && t.runs[r].results == s.runs[r].results
  }

  /** A result was produced, or the command was never put and no worker is about to put it. */
  predicate SeenToStop(s: State, r: nat)
    requires r in s.runs
  {
    s.runs[r].results != {} || (s.runs[r].puts == 0 && !Sending(s, r))
  }

  /** The evidence shows that nobody executes the run or can start it exactly when a result was produced,
      or its command was never put and is not about to be. */
  lemma ResolutionExact(s: State, r: nat)
    requires Base(s) && Enabled(s, OnRow(r, ResolveByHand))
    ensures (forall t :: Base(t) && SameEvidence(s, t, r) ==> !Live(t, r)) <==> SeenToStop(s, r)
  {
    BaseOf(s, r);
    if SeenToStop(s, r) {
      forall t | Base(t) && SameEvidence(s, t, r)
        ensures !Live(t, r)
      {
        BaseOf(t, r);
      }
    } else if !Live(s, r) {
      TwinIsBase(s, r);
      assert SameEvidence(s, Twin(s, r), r) && Live(Twin(s, r), r);
    } else {
      assert SameEvidence(s, s, r);
    }
  }

  /** On such evidence a resolution is safe and blames nobody. */
  lemma ResolutionSafe(s: State, r: nat)
    requires Base(s) && Enabled(s, OnRow(r, ResolveByHand)) && SeenToStop(s, r)
    ensures var s' := Apply(s, OnRow(r, ResolveByHand));
      SafeRun(s', r) && s'.runs[r].resolvedLive == s.runs[r].resolvedLive && s'.runs[r].row.phase == PhaseManualRecoveryDone
  {
    BaseOf(s, r);
  }

  // ----- executions that show it ---------------------------------------------------------

  lemma Extend(states: seq<State>, steps: seq<Step>, step: Step) returns (states': seq<State>, steps': seq<Step>)
    requires Execution(states, steps) && Enabled(states[|steps|], step)
    ensures Execution(states', steps') && |steps'| == |steps| + 1
    ensures states'[|steps'|] == Apply(states[|steps|], step)
  {
    states', steps' := states + [Apply(states[|steps|], step)], steps + [step];
    forall i | 0 <= i < |steps'|
      ensures StepTo(states'[i], steps'[i], states'[i + 1])
    {
      if i < |steps| { assert StepTo(states[i], steps[i], states[i + 1]); }
    }
  }

  const Sample: Order := Order(1, 5, 3, 42)

  /** The server after one agent connected and vouched for itself, with at most run 7 in the store. */
  predicate Ready(s: State, runs: map<nat, Run>, workers: map<nat, Worker>) {
    && s.serving && s.current == map[1 := 10]
    && s.streams == map[10 := Stream(1, true, true, true, true)] && s.runs == runs && s.workers == workers
  }

  function SampleRun(): Run {
    NewRun(Sample).(seen := true, row := Row(Sample, Dispatched, NoError, PhaseQueued))
  }

  lemma ReachCreated() returns (states: seq<State>, steps: seq<Step>)
    ensures Execution(states, steps) && Ready(states[|steps|], map[7 := NewRun(Sample)], map[])
  {
    states, steps := [State(map[], map[], true, map[], map[], map[], map[])], [];
    states, steps := Extend(states, steps, Link(Connect(1, 10)));
    assert states[1].streams == map[10 := Stream(1, true, false, false, false)];
    states, steps := Extend(states, steps, Link(ReportCapability(10, true)));
    assert Ready(states[2], map[], map[]);
    states, steps := Extend(states, steps, Job(Create(7, Sample)));
  }

  lemma ReachClaimed() returns (states: seq<State>, steps: seq<Step>)
    ensures Execution(states, steps) && Ready(states[|steps|], map[7 := SampleRun()], map[5 := Claimed(7)])
  {
    states, steps := ReachCreated();
    states, steps := Extend(states, steps, Job(See(7)));
    assert Ready(states[|steps|], map[7 := NewRun(Sample).(seen := true)], map[]);
    states, steps := Extend(states, steps, Job(Take(5, 7)));
    assert Ready(states[|steps|], map[7 := NewRun(Sample).(seen := true)], map[5 := Holding(7)]);
    states, steps := Extend(states, steps, Job(Claim(5)));
  }

  lemma ReachPut() returns (states: seq<State>, steps: seq<Step>)
    ensures Execution(states, steps) && Ready(states[|steps|], map[7 := Sent(SampleRun(), 10)], map[5 := Waiting(7)])
  {
    states, steps := ReachClaimed();
    states, steps := Extend(states, steps, Job(Bind(5)));
    assert Ready(states[|steps|], map[7 := SampleRun()], map[5 := Bound(7, 10)]);
    states, steps := Extend(states, steps, Job(Put(5)));
    assert Ready(states[|steps|], map[7 := Sent(SampleRun(), 10)], map[5 := Waiting(7)]);
  }

  /** Run 7 of repository 5 is dispatched to agent 1 and its worker waits. */
  predicate Dispatched7(s: State) {
    && Ready(s, s.runs, map[5 := Waiting(7)]) && s.runs.Keys == {7}
    && s.runs[7].row == Row(Sample, Dispatched, NoError, PhaseQueued) && s.runs[7].seen && s.runs[7].wire == {}
    && !s.runs[7].byHand && !s.runs[7].misfired
  }

  /** ... and the agent executes it, or the command got lost. */
  lemma ReachDispatched(lost: bool) returns (states: seq<State>, steps: seq<Step>)
    ensures Execution(states, steps) && Dispatched7(states[|steps|])
    ensures Executing(states[|steps|].runs[7]) == !lost && states[|steps|].runs[7].exec.NotStarted? == lost
  {
    states, steps := ReachPut();
    var u := Sent(SampleRun(), 10);
    assert !Executing(u) && 10 in u.wire && u.wire - {10} == {};
    states, steps := Extend(states, steps, OnAgent(7, if lost then Lose(10) else Receive(10)));
  }

  lemma ReachSecondCopy(lost: bool) returns (states: seq<State>, steps: seq<Step>)
    ensures Execution(states, steps)
    ensures var s := states[|steps|];
      && Ready(s, s.runs, map[5 := Holding(7)]) && s.runs.Keys == {7}
      && s.runs[7].row == Row(Sample, Dispatched, NoError, PhaseQueued) && s.runs[7].seen && s.runs[7].wire == {} && !s.runs[7].byHand
      && Executing(s.runs[7]) == !lost && s.runs[7].exec.NotStarted? == lost
  {
    states, steps := ReachDispatched(lost);
    states, steps := Extend(states, steps, Job(WaitReadFails(5)));
    assert states[|steps|].workers == map[5 := Idle];
    states, steps := Extend(states, steps, Job(Take(5, 7)));
  }

  /** Concretely: the poll of the run row fails, a second copy of the job is popped, its lookup fails, and
      the restore is recorded as failed with an untouched target while the agent is executing it. */
  lemma MisfireExecution() returns (states: seq<State>, steps: seq<Step>)
    ensures Execution(states, steps) && !Safe(states[|steps|])
    ensures forall r :: r in states[|steps|].runs ==> !states[|steps|].runs[r].byHand
  {
    states, steps := ReachSecondCopy(false);
    states, steps := Extend(states, steps, Job(LookupFails(5)));
    var u := states[|steps|].runs[7];
    assert u.row.phase == PhaseFailed && Executing(u);
    assert !SafeRun(states[|steps|], 7);
  }

  /** The same lookup failure is harmless when the command got lost, and the server cannot tell: two
      executions, alike to the server, of which it makes one unsafe. */
  lemma LookupFailureIndistinguishable() returns (a: seq<State>, b: seq<State>, sa: seq<Step>, sb: seq<Step>)
    ensures Execution(a, sa) && Execution(b, sb) && SameToServer(a[|sa|], b[|sb|])
    ensures JobEnabled(a[|sa|], LookupFails(5)) && JobEnabled(b[|sb|], LookupFails(5))
    ensures 7 in a[|sa|].runs && 7 in b[|sb|].runs
    ensures !SafeRun(Apply(a[|sa|], Job(LookupFails(5))), 7) && SafeRun(Apply(b[|sb|], Job(LookupFails(5))), 7)
  {
    a, sa := ReachSecondCopy(false);
    b, sb := ReachSecondCopy(true);
    var s', t' := AfterLookupFails(a[|sa|], 5), AfterLookupFails(b[|sb|], 5);
    assert s'.runs[7].row.phase == PhaseFailed && t'.runs[7].row.phase == PhaseFailed;
    assert Executing(s'.runs[7]) && t'.runs[7].exec.NotStarted? && t'.runs[7].wire == {};
  }

  /** The agent has disconnected and the run waits for an operator; the agent goes on, or it has died. */
  lemma ReachUnresolved(died: bool) returns (states: seq<State>, steps: seq<Step>)
    ensures Execution(states, steps)
    ensures var s := states[|steps|];
      && s.serving && s.runs.Keys == {7} && s.workers == map[5 := Waiting(7)] && s.current == map[]
      && s.streams == map[10 := Stream(1, false, true, true, true)]
      && s.runs[7].row == Row(Sample, Dispatched, NoError, PhaseManualRecoveryNeeded) && s.runs[7].seen && s.runs[7].wire == {}
      && !s.runs[7].misfired && Executing(s.runs[7]) == !died
  {
    states, steps := ReachDispatched(false);
    states, steps := Extend(states, steps, Link(Disconnect(1)));
    assert states[|steps|].streams == map[10 := Stream(1, false, true, true, true)] && states[|steps|].current == map[];
    states, steps := Extend(states, steps, OnRow(7, Progress(PhaseManualRecoveryNeeded)));
    if died {
      states, steps := Extend(states, steps, OnAgent(7, Die));
    }
  }

  /** Concretely: the agent disconnects, an operator resolves the restore although the agent goes on, and
      a second restore can be created beside it. */
  lemma LiveResolutionExecution() returns (states: seq<State>, steps: seq<Step>)
    ensures Execution(states, steps) && !Safe(states[|steps|])
    ensures forall r :: r in states[|steps|].runs ==> !states[|steps|].runs[r].misfired
    ensures Enabled(states[|steps|], Job(Create(8, Order(2, 6, 3, 43))))
  {
    states, steps := ReachUnresolved(false);
    states, steps := Extend(states, steps, OnRow(7, ResolveByHand));
    var u := states[|steps|].runs[7];
    assert u.row.phase == PhaseManualRecoveryDone && Executing(u);
    assert !SafeRun(states[|steps|], 7);
  }

  /** An agent that has died and one that goes on look the same to the server. */
  lemma ResolutionIndistinguishable() returns (a: seq<State>, b: seq<State>, sa: seq<Step>, sb: seq<Step>)
    ensures Execution(a, sa) && Execution(b, sb) && SameToServer(a[|sa|], b[|sb|])
    ensures Enabled(a[|sa|], OnRow(7, ResolveByHand)) && Enabled(b[|sb|], OnRow(7, ResolveByHand))
    ensures 7 in a[|sa|].runs && 7 in b[|sb|].runs && Live(a[|sa|], 7) && !Live(b[|sb|], 7)
  {
    a, sa := ReachUnresolved(false);
    b, sb := ReachUnresolved(true);
  }
}
