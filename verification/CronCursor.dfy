/** The schedule cursor of a plan (internal/server/scheduler/scheduler.go). Times are integers; the zero
    time, which Next returns when a schedule has no further instant, is None. */
module CronCursor {
  import opened RestorePhases
  import DedupKeys

  /** A parsed schedule in its time zone: its instants, and the first of them strictly after a time. */
  datatype Schedule = Schedule(instants: iset<int>, next: int -> Option<int>)

  ghost predicate Lawful(s: Schedule) {
    forall t :: match s.next(t)
      case Some(u) => u in s.instants && t < u && forall v :: t < v < u ==> v !in s.instants
      case None => forall v :: t < v ==> v !in s.instants
  }

  datatype Cursor = Cursor(key: string, next: Option<int>)

  datatype Memory = Memory(cached: Option<Cursor>, persisted: Option<Option<int>>)

  /** What the store and the agent do during a tick; `readable` is false for an error other than not-found,
      `startable` when starting a run fails for another reason than a duplicate. */
  datatype World = World(readable: bool, online: bool, saved: bool, startable: bool)

  function CursorKey(schedule: string, timezone: string): string {
    schedule + "\0" + timezone
  }

  /** The cursor the tick finds. */
  function Found(m: Memory, w: World): Option<int> {
    if m.cached.Some? then m.cached.value.next
    else if m.persisted.Some? && w.readable then m.persisted.value
    else None
  }

  /** The slot for which the tick requests a run. */
  function Fired(m: Memory, key: string, now: int, w: World): Option<int> {
    if m.cached.Some? && m.cached.value.key != key then None
    else
      var prev := Found(m, w);
      if prev.Some? && prev.value <= now && w.online then prev else None
  }

  function After(m: Memory, key: string, next: Option<int>, w: World): Memory {
    Memory(Some(Cursor(key, next)), if w.saved then Some(next) else m.persisted)
  }

  // ----- the scheduler in memory ---------------------------------------------------------

  /** `slots`: the plans and slots of the runs created, which the runs table keeps unique. */
  class Store {
    var cursors: map<nat, Option<int>>
    var slots: set<(nat, int)>

    constructor ()
      ensures cursors == map[] && slots == {}
    {
      cursors, slots := map[], {};
    }

    /** StartPlanRun for a slot, down to the insertion, which a slot taken before refuses. */
    method StartPlanRun(plan: nat, slot: int, startable: bool) returns (created: bool)
      modifies this`slots
      ensures created == (startable && (plan, slot) !in old(slots))
      ensures slots == if startable then old(slots) + {(plan, slot)} else old(slots)
    {
      if !startable || (plan, slot) in slots {
        return false;
      }
      slots := slots + {(plan, slot)};
      return true;
    }

    method SaveScheduleCursor(plan: nat, next: Option<int>, saved: bool)
      modifies this`cursors
      ensures cursors == if saved then old(cursors)[plan := next] else old(cursors)
    {
      if saved {
        cursors := cursors[plan := next];
      }
    }
  }

  class Scheduler {
    const store: Store
    var cursors: map<nat, Cursor>

    ghost function MemoryOf(plan: nat): Memory
      reads this, store
    {
      Memory(if plan in cursors then Some(cursors[plan]) else None,
             if plan in store.cursors then Some(store.cursors[plan]) else None)
    }

    constructor (store: Store)
      ensures this.store == store && cursors == map[]
    {
      this.store := store;
      cursors := map[];
    }

    /** `schedule` is None when the expression or the time zone does not parse. */
    method TickPlan(plan: nat, expression: string, timezone: string, schedule: Option<Schedule>, now: int, w: World)
      returns (fired: Option<int>, created: bool)
      modifies this, store
      ensures schedule.None? ==> fired == None && cursors == old(cursors) && store.cursors == old(store.cursors)
      ensures created == (fired.Some? && w.startable && (plan, fired.value) !in old(store.slots))
      ensures store.slots == if fired.Some? && w.startable then old(store.slots) + {(plan, fired.value)} else old(store.slots)
      ensures schedule.Some? ==>
        var key := CursorKey(expression, timezone);
        && fired == Fired(old(MemoryOf(plan)), key, now, w)
        && MemoryOf(plan) == After(old(MemoryOf(plan)), key, schedule.value.next(now), w)
      ensures forall p :: p != plan ==> MemoryOf(p) == old(MemoryOf(p))
    {
      fired, created := None, false;
      if schedule.None? {
        return;
      }
      var next := schedule.value.next(now);
      var key := CursorKey(expression, timezone);
      var cached := plan in cursors;
      if cached && cursors[plan].key != key {
        cursors := cursors[plan := Cursor(key, next)];
        store.SaveScheduleCursor(plan, next, w.saved);
        return;
      }
      var exists_ := cached;
      var prev := if cached then cursors[plan].next else None;
      if !exists_ && plan in store.cursors && w.readable {
        prev, exists_ := store.cursors[plan], true;
      }
      if !exists_ || prev.None? {
        cursors := cursors[plan := Cursor(key, next)];
        store.SaveScheduleCursor(plan, next, w.saved);
        return;
      }
      if prev.value <= now && w.online {
        fired := prev;
        created := store.StartPlanRun(plan, prev.value, w.startable);
      }
      cursors := cursors[plan := Cursor(key, next)];
      store.SaveScheduleCursor(plan, next, w.saved);
    }
  }

  /** Cursors made for different expressions or time zones are told apart. */
  lemma CursorKeyInjective(s1: string, z1: string, s2: string, z2: string)
    requires DedupKeys.NulFree([s1, z1]) && DedupKeys.NulFree([s2, z2])
    ensures CursorKey(s1, z1) == CursorKey(s2, z2) <==> s1 == s2 && z1 == z2
  {
    if CursorKey(s1, z1) == CursorKey(s2, z2) {
      DedupKeys.SplitJoin([s1, z1]);
      DedupKeys.SplitJoin([s2, z2]);
      assert [s1, z1][1..] == [z1] && [s2, z2][1..] == [z2];
      assert [s1, z1] == [s2, z2];
      assert [s1, z1][0] == [s2, z2][0] && [s1, z1][1] == [s2, z2][1];
    }
  }

  // ----- a plan over its life ------------------------------------------------------------

  /** What happens to one plan: a tick under its present expression, or a restart of the server. */
  datatype Event = Tick(key: string, now: int, w: World) | Restart

  /** The latest tick and whether its cursor was saved, the slots requested so far, and the slots of the
      runs created. */
  datatype Life = Life(m: Memory, lastKey: string, last: Option<int>, saved: bool, fired: seq<int>, created: seq<int>)

  function Unborn(): Life {
    Life(Memory(None, None), "", None, false, [], [])
  }

  function Live(l: Life, e: Event, schedules: string -> Schedule): Life {
    match e
    case Restart => l.(m := l.m.(cached := None))
    case Tick(key, now, w) =>
      var slot := Fired(l.m, key, now, w);
      Life(After(l.m, key, schedules(key).next(now), w), key, Some(now), w.saved,
           if slot.Some? then l.fired + [slot.value] else l.fired,
           if slot.Some? && w.startable && slot.value !in l.created then l.created + [slot.value] else l.created)
  }

  function Lived(events: seq<Event>, schedules: string -> Schedule): Life {
    if events == [] then Unborn() else Live(Lived(events[..|events| - 1], schedules), events[|events| - 1], schedules)
  }

  // ----- every life ----------------------------------------------------------------------

  predicate NoRepeats(s: seq<int>) {
    forall i, j :: 0 <= i < j < |s| ==> s[i] != s[j]
  }

  ghost predicate Within(a: seq<int>, b: seq<int>) {
    forall x :: x in a ==> x in b
  }

  lemma LiveOneRun(l: Life, e: Event, schedules: string -> Schedule)
    requires NoRepeats(l.created) && Within(l.created, l.fired)
    ensures var n := Live(l, e, schedules); NoRepeats(n.created) && Within(n.created, n.fired)
    ensures var n := Live(l, e, schedules); Within(l.fired, l.created) && (e.Tick? ==> e.w.startable) ==> Within(n.fired, n.created)
  {
    if e.Tick? {
      var n := Live(l, e, schedules);
      assert n.fired == l.fired || n.fired == l.fired + [Fired(l.m, e.key, e.now, e.w).value];
    }
  }

  /** At most one run is ever created for a slot, however often the slot is requested; and when starting
      runs does not fail otherwise, every slot requested has its run. */
  lemma {:induction false} OneRunPerSlot(events: seq<Event>, schedules: string -> Schedule)
    ensures var l := Lived(events, schedules);
      && NoRepeats(l.created) && Within(l.created, l.fired)
      && ((forall i :: 0 <= i < |events| && events[i].Tick? ==> events[i].w.startable) ==> Within(l.fired, l.created))
  {
    if events != [] {
      var before := events[..|events| - 1];
      OneRunPerSlot(before, schedules);
      LiveOneRun(Lived(before, schedules), events[|events| - 1], schedules);
    }
  }

  /** A cached cursor, and a saved one, is the first instant after the latest tick, of that tick's expression. */
  lemma {:induction false} CursorIsFresh(events: seq<Event>, schedules: string -> Schedule)
    ensures var l := Lived(events, schedules);
      && (l.m.cached.Some? ==> l.last.Some? && l.m.cached.value == Cursor(l.lastKey, schedules(l.lastKey).next(l.last.value)))
      && (l.last.Some? && l.saved ==> l.m.persisted == Some(schedules(l.lastKey).next(l.last.value)))
      && (l.last.None? ==> l.m == Memory(None, None) && l.fired == [])
  {
    if events != [] {
      CursorIsFresh(events[..|events| - 1], schedules);
    }
  }

  /** The slot is the first instant in the interval that starts after t and ends with now. */
  ghost predicate FirstWithin(slot: Option<int>, s: Schedule, t: int, now: int) {
    match slot
    case Some(f) => f in s.instants && t < f <= now && forall v :: t < v < f ==> v !in s.instants
    case None => forall v :: t < v <= now ==> v !in s.instants
  }

  lemma NextFirst(s: Schedule, t: int, now: int)
    requires Lawful(s)
    ensures FirstWithin(if s.next(t).Some? && s.next(t).value <= now then s.next(t) else None, s, t, now)
  {
    assert match s.next(t)
      case Some(u) => u in s.instants && t < u && forall v :: t < v < u ==> v !in s.instants
      case None => forall v :: t < v ==> v !in s.instants;
  }

  /** A tick under an unchanged expression, whose previous cursor is cached or was saved and can be read,
      fires exactly the first instant since the previous tick, so that every instant passed is fired or
      preceded by the one fired; for an offline agent it fires nothing. */
  lemma {:induction false} TickCovers(events: seq<Event>, schedules: string -> Schedule, now: int, w: World)
    requires var l := Lived(events, schedules);
      && l.last.Some? && Lawful(schedules(l.lastKey))
      && (l.m.cached.Some? || (l.saved && w.readable))
    ensures var l := Lived(events, schedules);
      var slot := Fired(l.m, l.lastKey, now, w);
      if w.online then FirstWithin(slot, schedules(l.lastKey), l.last.value, now) else slot == None
  {
    var l := Lived(events, schedules);
    CursorIsFresh(events, schedules);
    NextFirst(schedules(l.lastKey), l.last.value, now);
  }

  /** While the server runs, a change of the expression fires nothing, and whatever fires later is an
      instant of the expression the plan then has, after the previous tick. */
  lemma {:induction false} NoStaleSlot(events: seq<Event>, schedules: string -> Schedule, key: string, now: int, w: World)
    requires Lived(events, schedules).m.cached.Some? && Lawful(schedules(key))
    ensures var l := Lived(events, schedules);
      var slot := Fired(l.m, key, now, w);
      slot.Some? ==> key == l.lastKey && slot.value in schedules(key).instants && l.last.value < slot.value <= now
  {
    var l := Lived(events, schedules);
    CursorIsFresh(events, schedules);
    NextFirst(schedules(key), l.last.value, now);
  }

  /** The first tick after a restart trusts the saved cursor: whatever expression the plan now has, it
      fires the first instant, since the previous tick, of the expression of that tick. */
  lemma {:induction false} RestartFiresSaved(events: seq<Event>, schedules: string -> Schedule, key: string, now: int, w: World)
    requires var l := Lived(events, schedules); l.last.Some? && l.saved && l.m.cached.None? && Lawful(schedules(l.lastKey))
    ensures var l := Lived(events, schedules);
      var slot := Fired(l.m, key, now, w);
      if w.readable && w.online then FirstWithin(slot, schedules(l.lastKey), l.last.value, now) else slot == None
  {
    var l := Lived(events, schedules);
    CursorIsFresh(events, schedules);
    NextFirst(schedules(l.lastKey), l.last.value, now);
  }

  // ----- one expression over a whole life, restarts included ------------------------------

  ghost predicate Steady(events: seq<Event>, key: string) {
    && (forall i :: 0 <= i < |events| && events[i].Tick? ==> events[i].key == key)
    && (forall i, j :: 0 <= i < j < |events| && events[i].Tick? && events[j].Tick? ==> events[i].now <= events[j].now)
  }

  predicate Increasing(s: seq<int>) {
    forall i, j :: 0 <= i < j < |s| ==> s[i] < s[j]
  }

  /** A stored cursor stays an instant of the schedule, and none is between the latest tick and it. */
  ghost predicate StoredOk(l: Life, s: Schedule) {
    match l.m.persisted
    case None => true
    case Some(None) => l.last.Some? && forall v :: l.last.value < v ==> v !in s.instants
    case Some(Some(c)) => l.last.Some? && c in s.instants && forall v :: l.last.value < v < c ==> v !in s.instants
  }

  /** What a life under one expression keeps: its slots are instants of the schedule, and not after its
      latest tick. */
  ghost predicate LifeOk(l: Life, s: Schedule, key: string) {
    && StoredOk(l, s)
    && (forall i :: 0 <= i < |l.fired| ==> l.fired[i] in s.instants)
    && (l.last.Some? ==> l.lastKey == key && forall i :: 0 <= i < |l.fired| ==> l.fired[i] <= l.last.value)
  }

  lemma LiveOk(l: Life, e: Event, schedules: string -> Schedule, key: string)
    requires LifeOk(l, schedules(key), key) && Lawful(schedules(key))
    requires e.Tick? ==> e.key == key && (l.last.Some? ==> l.last.value <= e.now)
    requires l.last.None? ==> l.fired == []
    requires l.m.cached.Some? ==> l.last.Some? && l.m.cached.value == Cursor(key, schedules(key).next(l.last.value))
    ensures LifeOk(Live(l, e, schedules), schedules(key), key)
  {
    if e.Tick? {
      NextFirst(schedules(key), e.now, e.now);
      assert match schedules(key).next(e.now)
        case Some(u) => u in schedules(key).instants && forall v :: e.now < v < u ==> v !in schedules(key).instants
        case None => forall v :: e.now < v ==> v !in schedules(key).instants;
      if l.last.Some? {
        NextFirst(schedules(key), l.last.value, e.now);
      }
    }
  }

  lemma {:induction false} SteadyLife(events: seq<Event>, schedules: string -> Schedule, key: string)
    requires Steady(events, key) && Lawful(schedules(key))
    ensures var l := Lived(events, schedules);
      && LifeOk(l, schedules(key), key)
      && (l.last.Some? ==> exists i :: 0 <= i < |events| && events[i].Tick? && events[i].now == l.last.value)
  {
    if events != [] {
      var n := |events| - 1;
      var before := events[..n];
      var l := Lived(before, schedules);
      SteadyLife(before, schedules, key);
      CursorIsFresh(before, schedules);
      if l.last.Some? {
        var i :| 0 <= i < |before| && before[i].Tick? && before[i].now == l.last.value;
        assert events[i] == before[i];
      }
      LiveOk(l, events[n], schedules, key);
      assert events[n].Tick? ==> events[n].now == Lived(events, schedules).last.value;
    }
  }

  /** The tick is the first after a restart, and it reads a cursor at or before the last slot fired. */
  predicate ReadsOld(l: Life, e: Event)
    requires e.Tick?
  {
    && e.w.readable && e.w.online && l.m.cached.None?
    && l.m.persisted.Some? && l.m.persisted.value.Some?
    && l.fired != [] && l.m.persisted.value.value <= l.fired[|l.fired| - 1]
  }

  predicate ReadsOldCursor(events: seq<Event>, i: nat, schedules: string -> Schedule)
    requires i < |events|
  {
    events[i].Tick? && ReadsOld(Lived(events[..i], schedules), events[i])
  }

  /** For tick times that never decrease and an unchanged expression, the slots fired are instants of the
      schedule, at most one per tick, and they are strictly increasing if and only if no first tick after
      a restart reads a cursor at or before the last slot fired. */
  lemma {:induction false} SlotsIncrease(events: seq<Event>, schedules: string -> Schedule, key: string)
    requires Steady(events, key) && Lawful(schedules(key))
    ensures var fired := Lived(events, schedules).fired;
      && (forall i :: 0 <= i < |fired| ==> fired[i] in schedules(key).instants)
      && (Increasing(fired) <==> forall i :: 0 <= i < |events| ==> !ReadsOldCursor(events, i, schedules))
  {
    SteadyLife(events, schedules, key);
    if events != [] {
      var n := |events| - 1;
      var before := events[..n];
      SlotsIncrease(before, schedules, key);
      LastSlot(events, schedules, key);
      forall i | 0 <= i < n
        ensures ReadsOldCursor(events, i, schedules) == ReadsOldCursor(before, i, schedules)
      {
        assert before[..i] == events[..i] && before[i] == events[i];
      }
    }
  }

  /** A tick fires a slot after all others, unless it reads an old cursor. */
  lemma NextSlot(l: Life, e: Event, schedules: string -> Schedule, key: string)
    requires e.Tick? && e.key == key && LifeOk(l, schedules(key), key) && Lawful(schedules(key))
    requires l.last.Some? ==> l.last.value <= e.now
    requires l.last.None? ==> l.fired == []
    requires l.m.cached.Some? ==> l.last.Some? && l.m.cached.value == Cursor(key, schedules(key).next(l.last.value))
    ensures var stale := ReadsOld(l, e); var slot := Fired(l.m, key, e.now, e.w);
      && (stale ==> slot.Some? && slot.value <= l.fired[|l.fired| - 1])
      && (!stale && slot.Some? && Increasing(l.fired) ==> forall i :: 0 <= i < |l.fired| ==> l.fired[i] < slot.value)
  {
    if l.m.cached.Some? {
      NextFirst(schedules(key), l.last.value, l.last.value);
      assert schedules(key).next(l.last.value).Some? ==> schedules(key).next(l.last.value).value > l.last.value;
    }
  }

  /** The last event fires a slot after all others, unless it reads an old cursor. */
  lemma LastSlot(events: seq<Event>, schedules: string -> Schedule, key: string)
    requires events != [] && Steady(events, key) && Lawful(schedules(key))
    ensures var n := |events| - 1;
      var was, now := Lived(events[..n], schedules).fired, Lived(events, schedules).fired;
      && (now == was || (|now| == |was| + 1 && now[..|was|] == was))
      && (ReadsOldCursor(events, n, schedules) ==> was != [] && now != was && now[|was|] <= was[|was| - 1])
      && (!ReadsOldCursor(events, n, schedules) && now != was && Increasing(was) ==> forall i :: 0 <= i < |was| ==> was[i] < now[|was|])
  {
    var n := |events| - 1;
    var before := events[..n];
    var l := Lived(before, schedules);
    SteadyLife(before, schedules, key);
    CursorIsFresh(before, schedules);
    if l.last.Some? {
      var i :| 0 <= i < n && before[i].Tick? && before[i].now == l.last.value;
      assert events[i] == before[i];
    }
    if events[n].Tick? {
      NextSlot(l, events[n], schedules, key);
    }
  }

  /** The cursor of the latest tick before each restart was saved. */
  ghost predicate SavedBeforeRestarts(events: seq<Event>, schedules: string -> Schedule) {
    forall i :: 0 <= i < |events| && events[i].Restart? ==>
      var l := Lived(events[..i], schedules); l.last.None? || l.saved
  }

  lemma {:induction false} SavedWhenRestarted(events: seq<Event>, schedules: string -> Schedule)
    requires SavedBeforeRestarts(events, schedules)
    ensures var l := Lived(events, schedules); l.last.Some? && l.m.cached.None? ==> l.saved
  {
    if events != [] {
      var n := |events| - 1;
      var before := events[..n];
      forall i | 0 <= i < n && before[i].Restart?
        ensures var l := Lived(before[..i], schedules); l.last.None? || l.saved
      {
        assert before[..i] == events[..i] && before[i] == events[i];
      }
      SavedWhenRestarted(before, schedules);
    }
  }

  /** In particular when the cursor of the latest tick before each restart was saved; without restarts,
      always. */
  lemma SavedSlotsIncrease(events: seq<Event>, schedules: string -> Schedule, key: string)
    requires Steady(events, key) && Lawful(schedules(key)) && SavedBeforeRestarts(events, schedules)
    ensures Increasing(Lived(events, schedules).fired)
  {
    forall i | 0 <= i < |events|
      ensures !ReadsOldCursor(events, i, schedules)
    {
      var before := events[..i];
      var l := Lived(before, schedules);
      assert Steady(before, key);
      forall k | 0 <= k < i && before[k].Restart?
        ensures var l := Lived(before[..k], schedules); l.last.None? || l.saved
      {
        assert before[..k] == events[..k] && before[k] == events[k];
      }
      SavedWhenRestarted(before, schedules);
      CursorIsFresh(before, schedules);
      SteadyLife(before, schedules, key);
      if l.last.Some? {
        NextFirst(schedules(key), l.last.value, l.last.value);
        assert schedules(key).next(l.last.value).Some? ==> schedules(key).next(l.last.value).value > l.last.value;
      }
    }
    SlotsIncrease(events, schedules, key);
  }

  /** The tick finds a cursor that lies after the previous tick, or the end of the schedule. */
  predicate FindsCursor(l: Life, w: World) {
    || l.m.cached.Some?
    || (w.readable && l.m.persisted.Some? && l.last.Some? && (l.m.persisted.value.Some? ==> l.last.value < l.m.persisted.value.value))
  }

  predicate FindsNothing(l: Life, w: World) {
    l.m.cached.None? && (!w.readable || l.m.persisted.None?)
  }

  /** Under one expression and for an agent that is online, a tick fires the first instant since the
      previous tick if and only if it finds a cursor after that tick, or finds none and no instant passed. */
  lemma TickCoversExact(events: seq<Event>, schedules: string -> Schedule, key: string, now: int, w: World)
    requires Steady(events, key) && Lawful(schedules(key)) && w.online
    requires var l := Lived(events, schedules); l.last.Some? && l.last.value <= now
    ensures var l := Lived(events, schedules);
      FirstWithin(Fired(l.m, key, now, w), schedules(key), l.last.value, now) <==>
        FindsCursor(l, w) || (FindsNothing(l, w) && forall v :: l.last.value < v <= now ==> v !in schedules(key).instants)
  {
    var l := Lived(events, schedules);
    SteadyLife(events, schedules, key);
    CursorIsFresh(events, schedules);
    NextFirst(schedules(key), l.last.value, now);
  }

  // ----- where the guarantees end --------------------------------------------------------

  function Single(instant: int): (s: Schedule)
    ensures Lawful(s)
  {
    Schedule(iset{instant}, t => if t < instant then Some(instant) else None)
  }

  const Fine: World := World(true, true, true, true)

  lemma Step(events: seq<Event>, e: Event, schedules: string -> Schedule)
    ensures Lived(events + [e], schedules) == Live(Lived(events, schedules), e, schedules)
  {
    assert (events + [e])[..|events|] == events;
  }

  /** A cursor that could not be saved is requested again after a restart, and the request is refused. */
  lemma UnsavedSlotRequestedTwice() returns (events: seq<Event>, schedules: string -> Schedule)
    ensures Lawful(schedules("a")) && Steady(events, "a")
    ensures Lived(events, schedules).fired == [5, 5] && Lived(events, schedules).created == [5]
  {
    schedules := key => Single(5);
    var e1, e2, e3, e4 := Tick("a", 0, Fine), Tick("a", 5, Fine.(saved := false)), Restart, Tick("a", 6, Fine);
    Step([], e1, schedules);
    Step([e1], e2, schedules);
    Step([e1, e2], e3, schedules);
    Step([e1, e2, e3], e4, schedules);
    events := [] + [e1] + [e2] + [e3] + [e4];
    assert [] + [e1] == [e1] && [e1] + [e2] == [e1, e2] && [e1, e2] + [e3] == [e1, e2, e3] && [e1, e2, e3] + [e4] == events;
  }

  /** After a restart a cursor that cannot be read loses the instant that passed. */
  lemma UnreadableCursorLosesSlot() returns (events: seq<Event>, schedules: string -> Schedule)
    ensures Lawful(schedules("a")) && Steady(events, "a") && 5 in schedules("a").instants
    ensures Lived(events, schedules) == Life(Memory(Some(Cursor("a", None)), Some(None)), "a", Some(6), true, [], [])
  {
    schedules := key => Single(5);
    var e1, e2, e3 := Tick("a", 0, Fine), Restart, Tick("a", 6, Fine.(readable := false));
    Step([], e1, schedules);
    Step([e1], e2, schedules);
    Step([e1, e2], e3, schedules);
    events := [] + [e1] + [e2] + [e3];
    assert [] + [e1] == [e1] && [e1] + [e2] == [e1, e2] && [e1, e2] + [e3] == events;
  }

  /** A change of the expression and a restart before the next tick fire a slot of the old expression. */
  lemma RestartTrustsOldSlot() returns (events: seq<Event>, schedules: string -> Schedule)
    ensures Lawful(schedules("a")) && Lawful(schedules("b")) && Lived(events, schedules).fired == [5]
    ensures events != [] && var e := events[|events| - 1]; e.Tick? && e.key == "b" && 5 !in schedules("b").instants
  {
    schedules := key => if key == "a" then Single(5) else Single(9);
    var e1, e2, e3 := Tick("a", 0, Fine), Restart, Tick("b", 6, Fine);
    Step([], e1, schedules);
    Step([e1], e2, schedules);
    Step([e1, e2], e3, schedules);
    events := [] + [e1] + [e2] + [e3];
    assert [] + [e1] == [e1] && [e1] + [e2] == [e1, e2] && [e1, e2] + [e3] == events;
    assert "a" != "b";
  }
}
