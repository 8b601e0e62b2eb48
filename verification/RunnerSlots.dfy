/** How the agent runs commands side by side (internal/agent/runner.go): one lock per repository path, a
    counting semaphore, and the agent-wide mutex of database restores taken inside the pipeline. */
module RunnerSlots {
  import opened RestorePhases
  import opened Sets

  // ----- the locks of the runner ---------------------------------------------------------

  class Lock {
    constructor () {}
  }

  class LockTable {
    var locks: map<nat, Lock>

    /** Different repository paths have different locks. */
    ghost predicate Valid()
      reads this
    {
      forall p, q :: p in locks && q in locks && locks[p] == locks[q] ==> p == q
    }

    constructor ()
      ensures Valid() && locks == map[]
    {
      locks := map[];
    }

    /** Every caller with the same repository path gets the same lock, whenever it asks. */
    method RepositoryLock(key: nat) returns (lock: Lock)
      requires Valid()
      modifies this
      ensures Valid() && locks == old(locks)[key := lock]
      ensures if key in old(locks) then lock == old(locks)[key] else fresh(lock)
    {
      if key in locks {
        assert locks == locks[key := locks[key]];
        return locks[key];
      }
      lock := new Lock();
      locks := locks[key := lock];
    }
  }

  // ----- the step system -----------------------------------------------------------------

  /** Where a command's goroutine is. */
  datatype Pc =
    | Locking     // before the repository lock
    | Slotting    // before the semaphore
    | Executing   // in the pipeline
    | Contending  // in the pipeline, after the restore mutex was found taken
    | Queueing    // in the pipeline, blocked on the restore mutex
    | Restoring   // in the pipeline, with the restore mutex
    | Reporting   // the pipeline has returned, or was never entered
    | Releasing   // before the slot is given back
    | Unlocking   // before the repository lock is given back
    | Cleaning
    | Done

  /** `key` is None when the parameters name no repository; `slotted` is the deferred slot release. */
  datatype Thread = Thread(key: Option<nat>, restore: bool, cancelled: bool, slotted: bool, pc: Pc)

  datatype State = State(
    threads: map<nat, Thread>,
    size: Option<nat>,         // None: the concurrency is not limited
    slots: nat,                // tokens in the semaphore's channel
    locks: map<nat, nat>,      // held repository locks and their holders
    mutex: Option<nat>)        // holder of the restore mutex

  datatype Action =
    | Lock | TakeSlot | SkipSlots | GiveUp | TryMutex | CheckCancel | GetMutex | Return | Report | FreeSlot | FreeLock | Clean

  datatype Step = Arrive(t: nat, key: Option<nat>, restore: bool) | Cancel(t: nat) | Act(t: nat, act: Action)

  predicate CanAct(s: State, u: Thread, act: Action) {
    match act
    case Lock => u.pc.Locking? && (u.key.Some? ==> u.key.value !in s.locks)
    case TakeSlot => u.pc.Slotting? && s.size.Some? && s.slots < s.size.value
    case SkipSlots => u.pc.Slotting? && s.size.None?
    case GiveUp => u.pc.Slotting? && s.size.Some? && u.cancelled
    case TryMutex => u.pc.Executing? && u.restore
    case CheckCancel => u.pc.Contending?
    case GetMutex => u.pc.Queueing? && s.mutex.None?
    case Return => u.pc.Executing? || u.pc.Restoring?
    case Report => u.pc.Reporting?
    case FreeSlot => u.pc.Releasing? && (u.slotted ==> s.slots > 0)
    case FreeLock => u.pc.Unlocking?
    case Clean => u.pc.Cleaning?
  }

  predicate Enabled(s: State, step: Step) {
    match step
    case Arrive(t, _, _) => t !in s.threads
    case Cancel(t) => t in s.threads
    case Act(t, act) => t in s.threads && CanAct(s, s.threads[t], act)
  }

  function Put(s: State, t: nat, u: Thread): State {
    s.(threads := s.threads[t := u])
  }

  function ActApply(s: State, t: nat, act: Action): State
    requires t in s.threads && CanAct(s, s.threads[t], act)
  {
    var u := s.threads[t];
    match act
    case Lock =>
      Put(if u.key.Some? then s.(locks := s.locks[u.key.value := t]) else s, t, u.(pc := Slotting))
    case TakeSlot => Put(s.(slots := s.slots + 1), t, u.(pc := Executing, slotted := true))
    case SkipSlots => Put(s, t, u.(pc := Executing))
    case GiveUp => Put(s, t, u.(pc := Reporting))
    case TryMutex =>
      if s.mutex.None? then Put(s.(mutex := Some(t)), t, u.(pc := Restoring)) else Put(s, t, u.(pc := Contending))
    case CheckCancel => Put(s, t, u.(pc := if u.cancelled then Reporting else Queueing))
    case GetMutex => Put(s.(mutex := Some(t)), t, u.(pc := Restoring))
    case Return => Put(if u.pc.Restoring? then s.(mutex := None) else s, t, u.(pc := Reporting))
    case Report => Put(s, t, u.(pc := Releasing))
    case FreeSlot => Put(if u.slotted then s.(slots := s.slots - 1) else s, t, u.(pc := Unlocking, slotted := false))
    case FreeLock =>
      Put(if u.key.Some? then s.(locks := s.locks - {u.key.value}) else s, t, u.(pc := Cleaning))
    case Clean => Put(s, t, u.(pc := Done))
  }

  function Apply(s: State, step: Step): State
    requires Enabled(s, step)
  {
    match step
    case Arrive(t, key, restore) => Put(s, t, Thread(key, restore, false, false, Locking))
    case Cancel(t) => Put(s, t, s.threads[t].(cancelled := true))
    case Act(t, act) => ActApply(s, t, act)
  }

  /** A positive concurrency limit makes a semaphore of that size. */
  predicate Initial(s: State, limit: int) {
    s == State(map[], if limit > 0 then Some(limit) else None, 0, map[], None)
  }

  ghost predicate Execution(states: seq<State>, steps: seq<Step>, limit: int) {
    && |states| == |steps| + 1
    && Initial(states[0], limit)
    && forall i :: 0 <= i < |steps| ==> Enabled(states[i], steps[i]) && states[i + 1] == Apply(states[i], steps[i])
  }

  // ----- the invariant -------------------------------------------------------------------

  /** The thread is between the repository lock and its release. */
  predicate Holds(u: Thread) {
    !u.pc.Locking? && !u.pc.Cleaning? && !u.pc.Done?
  }

  predicate InPipeline(u: Thread) {
    u.pc.Executing? || u.pc.Contending? || u.pc.Queueing? || u.pc.Restoring?
  }

  function Slotted(threads: map<nat, Thread>): set<nat> {
    set t | t in threads && threads[t].slotted
  }

  predicate ThreadOk(s: State, t: nat, u: Thread) {
    && (u.key.Some? && Holds(u) ==> u.key.value in s.locks && s.locks[u.key.value] == t)
    && (u.slotted ==> s.size.Some? && (InPipeline(u) || u.pc.Reporting? || u.pc.Releasing?))
    && (InPipeline(u) && s.size.Some? ==> u.slotted)
    && (u.pc.Restoring? <==> s.mutex == Some(t))
  }

  ghost predicate LocksOk(s: State) {
    forall k :: k in s.locks ==> s.locks[k] in s.threads && s.threads[s.locks[k]].key == Some(k) && Holds(s.threads[s.locks[k]])
  }

  ghost predicate CountsOk(s: State) {
    && s.slots == |Slotted(s.threads)|
    && (s.size.Some? ==> s.slots <= s.size.value && 0 < s.size.value)
  }

  ghost predicate Inv(s: State) {
    && (forall t :: t in s.threads ==> ThreadOk(s, t, s.threads[t]))
    && LocksOk(s)
    && (s.mutex.Some? ==> s.mutex.value in s.threads)
    && CountsOk(s)
  }

  lemma SlottedPut(threads: map<nat, Thread>, t: nat, u: Thread)
    ensures Slotted(threads[t := u]) == if u.slotted then Slotted(threads) + {t} else Slotted(threads) - {t}
  {
  }

  lemma ActKeepsThread(s: State, t: nat, act: Action, p: nat)
    requires p in s.threads && ThreadOk(s, p, s.threads[p])
    requires t in s.threads && ThreadOk(s, t, s.threads[t]) && CanAct(s, s.threads[t], act)
    ensures var v := ActApply(s, t, act); p in v.threads && ThreadOk(v, p, v.threads[p])
  {
    if p != t {
      assert ActApply(s, t, act).threads[p] == s.threads[p];
    }
  }

  lemma ActKeepsLocks(s: State, t: nat, act: Action)
    requires LocksOk(s) && t in s.threads && ThreadOk(s, t, s.threads[t]) && CanAct(s, s.threads[t], act)
    ensures LocksOk(ActApply(s, t, act))
  {
    var v := ActApply(s, t, act);
    ActPuts(s, t, act);
    assert v.threads[t].key == s.threads[t].key;
    forall k | k in v.locks
      ensures v.locks[k] in v.threads && v.threads[v.locks[k]].key == Some(k) && Holds(v.threads[v.locks[k]])
    {
      if !act.Lock? {
        assert k in s.locks && v.locks[k] == s.locks[k];
      }
    }
  }

  lemma ActKeepsCounts(s: State, t: nat, act: Action)
    requires CountsOk(s) && t in s.threads && ThreadOk(s, t, s.threads[t]) && CanAct(s, s.threads[t], act)
    ensures CountsOk(ActApply(s, t, act))
  {
    var v := ActApply(s, t, act);
    SlottedPut(s.threads, t, v.threads[t]);
    assert t in Slotted(s.threads) <==> s.threads[t].slotted;
  }

  lemma ActKeeps(s: State, t: nat, act: Action)
    requires Inv(s) && t in s.threads && CanAct(s, s.threads[t], act)
    ensures Inv(ActApply(s, t, act))
  {
    var v := ActApply(s, t, act);
    ActKeepsLocks(s, t, act);
    ActKeepsCounts(s, t, act);
    assert v.threads.Keys == s.threads.Keys;
    forall p | p in v.threads
      ensures ThreadOk(v, p, v.threads[p])
    {
      ActKeepsThread(s, t, act, p);
    }
  }

  /** Arrivals and cancellations change no lock, slot or mutex. */
  lemma OtherKeeps(s: State, step: Step)
    requires Inv(s) && Enabled(s, step) && !step.Act?
    ensures Inv(Apply(s, step))
  {
    var v := Apply(s, step);
    var u := v.threads[step.t];
    assert v == s.(threads := s.threads[step.t := u]);
    assert step.Cancel? ==> ThreadOk(s, step.t, s.threads[step.t]);
    OtherCounts(s, step.t, u);
    assert ThreadOk(v, step.t, u);
    forall p | p in s.threads && p != step.t
      ensures ThreadOk(v, p, v.threads[p])
    {
      assert ThreadOk(s, p, s.threads[p]);
    }
  }

  lemma OtherCounts(s: State, t: nat, u: Thread)
    requires u.slotted == (t in s.threads && s.threads[t].slotted)
    ensures Slotted(s.threads[t := u]) == Slotted(s.threads)
  {
    SlottedPut(s.threads, t, u);
  }

  lemma {:induction false} ExecutionInv(states: seq<State>, steps: seq<Step>, limit: int, i: nat)
    requires Execution(states, steps, limit) && i < |states|
    ensures Inv(states[i]) && states[i].size == if limit > 0 then Some(limit) else None
  {
    if i > 0 {
      ExecutionInv(states, steps, limit, i - 1);
      if steps[i - 1].Act? {
        ActKeeps(states[i - 1], steps[i - 1].t, steps[i - 1].act);
      } else {
        OtherKeeps(states[i - 1], steps[i - 1]);
      }
    }
  }

  // ----- the main results ----------------------------------------------------------------

  function Running(s: State): set<nat> {
    set t | t in s.threads && InPipeline(s.threads[t])
  }

  /** At most one pipeline per repository path, at most `limit` in total, and at most one database restore
      in its critical section. */
  lemma Exclusion(states: seq<State>, steps: seq<Step>, limit: int, i: nat)
    requires Execution(states, steps, limit) && i < |states|
    ensures limit > 0 ==> |Running(states[i])| <= limit
    ensures forall p, t :: p in Running(states[i]) && t in Running(states[i]) ==>
      var u, v := states[i].threads[p], states[i].threads[t];
      (u.key.Some? && u.key == v.key) || (u.pc.Restoring? && v.pc.Restoring?) ==> p == t
  {
    ExecutionInv(states, steps, limit, i);
    var s := states[i];
    forall t | t in Running(s)
      ensures ThreadOk(s, t, s.threads[t])
    {
    }
    if limit > 0 {
      SubsetSize(Running(s), Slotted(s.threads));
    }
  }

  /** The action a thread can take whatever the others do. */
  function Own(u: Thread): (act: Option<Action>) {
    match u.pc
    case Contending => Some(CheckCancel)
    case Executing => Some(Return)
    case Restoring => Some(Return)
    case Reporting => Some(Report)
    case Releasing => Some(FreeSlot)
    case Unlocking => Some(FreeLock)
    case Cleaning => Some(Clean)
    case _ => None
  }

  lemma SlotIsCounted(s: State, t: nat)
    requires Inv(s) && t in s.threads && s.threads[t].slotted
    ensures s.slots > 0
  {
    assert t in Slotted(s.threads);
  }

  /** No deadlock: as long as a thread is unfinished some thread can act. A slot holder never waits for a
      repository lock, and the holder of the restore mutex waits for nothing. */
  lemma SomeoneCanAct(s: State, unfinished: nat) returns (t: nat, act: Action)
    requires Inv(s) && unfinished in s.threads && !s.threads[unfinished].pc.Done?
    ensures t in s.threads && CanAct(s, s.threads[t], act)
  {
    if s.mutex.Some? {
      t, act := s.mutex.value, Return;
      assert ThreadOk(s, t, s.threads[t]);
    } else if free :| free in s.threads && Own(s.threads[free]).Some? {
      t, act := free, Own(s.threads[free]).value;
      if s.threads[free].slotted {
        SlotIsCounted(s, free);
      }
    } else if waits :| waits in s.threads && s.threads[waits].pc.Queueing? {
      t, act := waits, GetMutex;
    } else if waits :| waits in s.threads && s.threads[waits].pc.Slotting? {
      forall p | p in s.threads
        ensures !s.threads[p].slotted
      {
        assert ThreadOk(s, p, s.threads[p]);
      }
      assert Slotted(s.threads) == {};
      t, act := waits, if s.size.Some? then TakeSlot else SkipSlots;
    } else {
      t, act := unfinished, Lock;
    }
  }

  // ----- every schedule ends -------------------------------------------------------------

  function Left(u: Thread): nat {
    match u.pc
    case Locking => 10
    case Slotting => 9
    case Executing => 8
    case Contending => 7
    case Queueing => 6
    case Restoring => 5
    case Reporting => 4
    case Releasing => 3
    case Unlocking => 2
    case Cleaning => 1
    case Done => 0
  }

  /** How many actions the threads can still take at most. */
  ghost function Total(threads: map<nat, Thread>): nat {
    if threads == map[] then 0
    else var t :| t in threads; Left(threads[t]) + Total(threads - {t})
  }

  lemma {:induction false} TotalSplit(threads: map<nat, Thread>, t: nat)
    requires t in threads
    ensures Total(threads) == Left(threads[t]) + Total(threads - {t})
  {
    var p :| p in threads && Total(threads) == Left(threads[p]) + Total(threads - {p});
    if p != t {
      TotalSplit(threads - {p}, t);
      TotalSplit(threads - {t}, p);
      assert threads - {p} - {t} == threads - {t} - {p};
    }
  }

  lemma {:induction false} TotalBound(threads: map<nat, Thread>)
    ensures Total(threads) <= 10 * |threads|
  {
    if threads != map[] {
      var p :| p in threads && Total(threads) == Left(threads[p]) + Total(threads - {p});
      var rest := threads - {p};
      TotalBound(rest);
      assert rest.Keys == threads.Keys - {p};
      assert |rest.Keys| == |threads.Keys| - 1;
      assert |rest| == |rest.Keys|;
      assert |threads| == |threads.Keys|;
      assert Left(threads[p]) <= 10;
      assert Total(threads) <= 10 + 10 * |rest|;
    }
  }

  lemma ActPuts(s: State, t: nat, act: Action)
    requires t in s.threads && CanAct(s, s.threads[t], act)
    ensures var v := ActApply(s, t, act); t in v.threads && v.threads == s.threads[t := v.threads[t]]
  {
  }

  lemma ActShrinks(s: State, t: nat, act: Action)
    requires t in s.threads && CanAct(s, s.threads[t], act)
    ensures Total(ActApply(s, t, act).threads) < Total(s.threads)
  {
    var u := ActApply(s, t, act).threads[t];
    assert Left(u) < Left(s.threads[t]);
    ActPuts(s, t, act);
    TotalSplit(s.threads, t);
    TotalSplit(s.threads[t := u], t);
    assert s.threads - {t} == s.threads[t := u] - {t};
  }

  /** From any reachable state, whatever the schedule, the threads act at most ten times each; a schedule
      that cannot be continued has finished them all. */
  lemma {:induction false} EveryScheduleEnds(s: State, schedule: seq<(nat, Action)>) returns (last: State)
    requires Inv(s) && Scheduled(s, schedule)
    decreases |schedule|
    ensures last == AfterSchedule(s, schedule) && Inv(last)
    ensures |schedule| + Total(last.threads) <= Total(s.threads) <= 10 * |s.threads|
    ensures (forall t, act: Action :: t in last.threads ==> !CanAct(last, last.threads[t], act)) ==>
      forall t :: t in last.threads ==> last.threads[t].pc.Done?
  {
    TotalBound(s.threads);
    if schedule == [] {
      last := s;
      if t :| t in s.threads && !s.threads[t].pc.Done? {
        var p, act := SomeoneCanAct(s, t);
      }
    } else {
      var (t, act) := schedule[0];
      ActKeeps(s, t, act);
      ActShrinks(s, t, act);
      last := EveryScheduleEnds(ActApply(s, t, act), schedule[1..]);
    }
  }

  predicate Scheduled(s: State, schedule: seq<(nat, Action)>)
    decreases |schedule|
  {
    schedule == [] ||
    var (t, act) := schedule[0];
    t in s.threads && CanAct(s, s.threads[t], act) && Scheduled(ActApply(s, t, act), schedule[1..])
  }

  function AfterSchedule(s: State, schedule: seq<(nat, Action)>): State
    requires Scheduled(s, schedule)
    decreases |schedule|
  {
    if schedule == [] then s else AfterSchedule(ActApply(s, schedule[0].0, schedule[0].1), schedule[1..])
  }
}
