/** The agent's buffers of result messages across reconnects (internal/agent/runner.go): results that could
    not be sent wait in `pending`, results that were sent but not followed by a server message in `unacked`. */
module ResultBuffer {
  import opened RestorePhases

  // ----- the buffers ---------------------------------------------------------------------

  /** The messages whose send fails, in order. */
  function Failing(msgs: seq<nat>, fails: set<nat>): seq<nat> {
    if msgs == [] then []
    else Failing(msgs[..|msgs| - 1], fails) + if msgs[|msgs| - 1] in fails then [msgs[|msgs| - 1]] else []
  }

  function Passing(msgs: seq<nat>, fails: set<nat>): seq<nat> {
    if msgs == [] then []
    else Passing(msgs[..|msgs| - 1], fails) + if msgs[|msgs| - 1] in fails then [] else [msgs[|msgs| - 1]]
  }

  function Count(msgs: seq<nat>, m: nat): nat {
    multiset(msgs)[m]
  }

  function One(b: bool): nat {
    if b then 1 else 0
  }

  lemma CountConcat(a: seq<nat>, b: seq<nat>, m: nat)
    ensures Count(a + b, m) == Count(a, m) + Count(b, m)
  {
  }

  lemma CountLast(a: seq<nat>, x: nat, m: nat)
    ensures Count(a + [x], m) == Count(a, m) + One(m == x)
  {
  }

  lemma CountFirst(a: seq<nat>, m: nat)
    requires a != []
    ensures Count(a, m) == One(m == a[0]) + Count(a[1..], m)
  {
    assert a == [a[0]] + a[1..];
  }

  lemma {:induction false} SplitCounts(msgs: seq<nat>, fails: set<nat>, m: nat)
    ensures Count(msgs, m) == Count(Failing(msgs, fails), m) + Count(Passing(msgs, fails), m)
  {
    if msgs != [] {
      var before, x := msgs[..|msgs| - 1], msgs[|msgs| - 1];
      SplitCounts(before, fails, m);
      assert msgs == before + [x];
      CountLast(before, x, m);
      CountLast(Failing(before, fails), x, m);
      CountLast(Passing(before, fails), x, m);
    }
  }

  /** The messages that pass and those that fail are all of them. */
  lemma SplitConserves(msgs: seq<nat>, fails: set<nat>)
    ensures multiset(msgs) == multiset(Failing(msgs, fails)) + multiset(Passing(msgs, fails))
  {
    forall m
      ensures multiset(msgs)[m] == (multiset(Failing(msgs, fails)) + multiset(Passing(msgs, fails)))[m]
    {
      SplitCounts(msgs, fails, m);
    }
  }

  lemma SplitLast(msgs: seq<nat>, i: nat, fails: set<nat>)
    requires i < |msgs|
    ensures Failing(msgs[..i + 1], fails) == Failing(msgs[..i], fails) + if msgs[i] in fails then [msgs[i]] else []
    ensures Passing(msgs[..i + 1], fails) == Passing(msgs[..i], fails) + if msgs[i] in fails then [] else [msgs[i]]
  {
    assert msgs[..i + 1][..i] == msgs[..i];
  }

  class Buffers {
    var stream: Option<nat>
    var pending: seq<nat>
    var unacked: seq<nat>

    constructor ()
      ensures stream == None && pending == [] && unacked == []
    {
      stream, pending, unacked := None, [], [];
    }

    /** `fails`: the messages for which Send returns an error. */
    method SendRunResult(msg: nat, fails: set<nat>)
      modifies this`pending, this`unacked
      ensures var lost := stream.None? || msg in fails;
        && pending == old(pending) + (if lost then [msg] else [])
        && unacked == old(unacked) + (if lost then [] else [msg])
    {
      if stream.None? || msg in fails {
        pending := pending + [msg];
      } else {
        unacked := unacked + [msg];
      }
    }

    method ConfirmSentResults()
      modifies this`unacked
      ensures unacked == []
    {
      unacked := [];
    }

    method RequeueUnackedResults()
      modifies this`pending, this`unacked
      ensures unacked == [] && pending == old(unacked) + old(pending)
    {
      var was := unacked;
      unacked := [];
      pending := was + pending;
    }

    method FlushPendingResults(fails: set<nat>)
      modifies this`pending, this`unacked
      ensures pending == Failing(old(pending), fails)
      ensures unacked == old(unacked) + Passing(old(pending), fails)
    {
      var todo := pending;
      pending := [];
      var failed := [];
      for i := 0 to |todo|
        invariant failed == Failing(todo[..i], fails)
        invariant unacked == old(unacked) + Passing(todo[..i], fails) && pending == []
      {
        SplitLast(todo, i, fails);
        if todo[i] in fails {
          failed := failed + [todo[i]];
        } else {
          unacked := unacked + [todo[i]];
        }
      }
      assert todo[..|todo|] == todo;
      pending := failed + pending;
    }

    /** A new stream: nothing is lost, and what was sent without an answer goes out again, before what was
        never sent. */
    method SetStream(s: nat, fails: set<nat>)
      modifies this
      ensures stream == Some(s)
      ensures multiset(pending) + multiset(unacked) == multiset(old(unacked + pending))
      ensures pending == Failing(old(unacked + pending), fails)
      ensures unacked == Passing(old(unacked + pending), fails)
    {
      ghost var all := unacked + pending;
      stream := Some(s);
      RequeueUnackedResults();
      FlushPendingResults(fails);
      assert pending == Failing(all, fails) && unacked == [] + Passing(all, fails);
      SplitConserves(all, fails);
    }
  }

  // ----- the step system: senders, the reconnecting goroutine, the server's messages --------

  datatype Reconnect =
    | Idle
    | Connected                               // the stream is replaced
    | Moving(msgs: seq<nat>)                  // taken from unacked
    | Moved
    | Flushing(todo: seq<nat>, failed: seq<nat>)
    | Marking(msg: nat, todo: seq<nat>, failed: seq<nat>)

  /** In the hands of a finishing run: `sending` before it has read the present stream, `bound` with the stream
      it read, `sent` after Send on that stream returned nil. `on`: the stream of a message's latest successful
      Send; `late`: noted as sent when another stream had already replaced that one, and not sent since. */
  datatype State = State(
    stream: Option<nat>,
    produced: set<nat>,
    sending: set<nat>,
    bound: map<nat, nat>,
    sent: set<nat>,
    pending: seq<nat>,
    unacked: seq<nat>,
    acked: multiset<nat>,
    reconnect: Reconnect,
    on: map<nat, nat>,
    late: set<nat>)

  datatype Step =
    | Produce(msg: nat)
    | Read(msg: nat)      // currentStream
    | SendOk(msg: nat)    // Send on the stream read, whatever the present one is
    | Stash(msg: nat)     // there was no stream, or Send fails
    | Mark(msg: nat)
    | ServerMessage       // received by the goroutine that connects
    | Connect(stream: nat)
    | TakeUnacked
    | PutBack
    | TakePending
    | FlushOk
    | FlushMark
    | FlushFails
    | FlushEnds

  predicate Enabled(s: State, step: Step) {
    match step
    case Produce(m) => m !in s.produced
    case Read(m) => m in s.sending && s.stream.Some?
    case SendOk(m) => m in s.bound
    case Stash(m) => m in s.sending || m in s.bound
    case Mark(m) => m in s.sent
    case ServerMessage => s.stream.Some? && s.reconnect.Idle?
    case Connect(st) => s.reconnect.Idle? && (s.stream.Some? ==> s.stream.value < st)
    case TakeUnacked => s.reconnect.Connected?
    case PutBack => s.reconnect.Moving?
    case TakePending => s.reconnect.Moved?
    case FlushOk => s.reconnect.Flushing? && s.reconnect.todo != [] && s.stream.Some?
    case FlushMark => s.reconnect.Marking?
    case FlushFails => s.reconnect.Flushing? && s.reconnect.todo != []
    case FlushEnds => s.reconnect.Flushing? && s.reconnect.todo == []
  }

  function Apply(s: State, step: Step): State
    requires Enabled(s, step)
  {
    match step
    case Produce(m) => s.(produced := s.produced + {m}, sending := s.sending + {m})
    case Read(m) => s.(sending := s.sending - {m}, bound := s.bound[m := s.stream.value])
    case SendOk(m) => s.(bound := s.bound - {m}, sent := s.sent + {m}, on := s.on[m := s.bound[m]])
    case Stash(m) => s.(sending := s.sending - {m}, bound := s.bound - {m}, pending := s.pending + [m])
    case Mark(m) =>
      s.(sent := s.sent - {m}, unacked := s.unacked + [m],
         late := if m in s.on && Some(s.on[m]) == s.stream then s.late else s.late + {m})
    case ServerMessage => s.(unacked := [], acked := s.acked + multiset(s.unacked))
    case Connect(st) => s.(stream := Some(st), reconnect := Connected)
    case TakeUnacked => s.(unacked := [], reconnect := Moving(s.unacked))
    case PutBack => s.(pending := s.reconnect.msgs + s.pending, reconnect := Moved)
    case TakePending => s.(pending := [], reconnect := Flushing(s.pending, []))
    case FlushOk =>
      var m := s.reconnect.todo[0];
      s.(reconnect := Marking(m, s.reconnect.todo[1..], s.reconnect.failed), on := s.on[m := s.stream.value])
    case FlushMark =>
      s.(unacked := s.unacked + [s.reconnect.msg], reconnect := Flushing(s.reconnect.todo, s.reconnect.failed),
         late := s.late - {s.reconnect.msg})
    case FlushFails =>
      s.(reconnect := Flushing(s.reconnect.todo[1..], s.reconnect.failed + [s.reconnect.todo[0]]))
    case FlushEnds => s.(pending := s.reconnect.failed + s.pending, reconnect := Idle)
  }

  predicate Initial(s: State) {
    s == State(None, {}, {}, map[], {}, [], [], multiset{}, Idle, map[], {})
  }

  ghost predicate Execution(states: seq<State>, steps: seq<Step>) {
    && |states| == |steps| + 1
    && Initial(states[0])
    && forall i :: 0 <= i < |steps| ==> Enabled(states[i], steps[i]) && states[i + 1] == Apply(states[i], steps[i])
  }

  /** How often the reconnecting goroutine has the message in hand. */
  function InHand(c: Reconnect, m: nat): nat {
    match c
    case Moving(msgs) => Count(msgs, m)
    case Flushing(todo, failed) => Count(todo, m) + Count(failed, m)
    case Marking(msg, todo, failed) => One(m == msg) + Count(todo, m) + Count(failed, m)
    case _ => 0
  }

  /** How often a finishing run has it in hand. */
  function WithSender(s: State, m: nat): nat {
    One(m in s.sending) + One(m in s.bound) + One(m in s.sent)
  }

  /** How often the message exists: being sent, pending, sent and unacknowledged, acknowledged. */
  function Copies(s: State, m: nat): nat {
    WithSender(s, m) + InHand(s.reconnect, m) + Count(s.pending, m) + Count(s.unacked, m) + s.acked[m]
  }

  /** Every message ever produced is in exactly one place, once. */
  ghost predicate Conserved(s: State) {
    forall m :: Copies(s, m) == One(m in s.produced)
  }

  /** After a reconnection, what waits for an answer was sent on the present stream, except exactly what its
      sender noted late. */
  ghost predicate Resent(s: State) {
    && (s.reconnect.Connected? || forall m :: m in s.unacked ==> m in s.on && (Some(s.on[m]) == s.stream <==> m !in s.late))
    && (s.reconnect.Marking? ==> var m := s.reconnect.msg; m in s.on && Some(s.on[m]) == s.stream)
    && (!s.reconnect.Idle? ==> s.stream.Some?)
    && (forall m :: m in s.sending || m in s.bound || m in s.sent ==> m !in s.late)
    && s.late <= s.produced
    && (forall m :: m in s.on ==> s.stream.Some? && s.on[m] <= s.stream.value)
    && (forall m :: m in s.bound ==> s.stream.Some? && s.bound[m] <= s.stream.value)
  }

  predicate BySender(step: Step) {
    step.Produce? || step.Read? || step.SendOk? || step.Stash? || step.Mark?
  }

  lemma SenderConserves(s: State, step: Step, m: nat)
    requires Copies(s, m) == One(m in s.produced) && Enabled(s, step) && BySender(step)
    ensures Copies(Apply(s, step), m) == One(m in Apply(s, step).produced)
  {
    CountLast(s.pending, step.msg, m);
    CountLast(s.unacked, step.msg, m);
  }

  predicate ByFlush(step: Step) {
    step.FlushOk? || step.FlushMark? || step.FlushFails? || step.FlushEnds?
  }

  lemma FlushConserves(s: State, step: Step, m: nat)
    requires Enabled(s, step) && ByFlush(step)
    ensures Copies(Apply(s, step), m) == Copies(s, m)
  {
    var c := s.reconnect;
    match step
    case FlushOk => CountFirst(c.todo, m);
    case FlushMark => CountLast(s.unacked, c.msg, m);
    case FlushFails =>
      CountFirst(c.todo, m);
      CountLast(c.failed, c.todo[0], m);
    case FlushEnds => CountConcat(c.failed, s.pending, m);
  }

  lemma MovesConserve(s: State, step: Step, m: nat)
    requires Enabled(s, step) && !BySender(step) && !ByFlush(step)
    ensures Copies(Apply(s, step), m) == Copies(s, m)
  {
    if step.PutBack? {
      CountConcat(s.reconnect.msgs, s.pending, m);
    }
  }

  lemma StepConserves(s: State, step: Step)
    requires Conserved(s) && Enabled(s, step)
    ensures Conserved(Apply(s, step))
  {
    var t := Apply(s, step);
    forall m
      ensures Copies(t, m) == One(m in t.produced)
    {
      assert Copies(s, m) == One(m in s.produced);
      if BySender(step) {
        SenderConserves(s, step, m);
      } else if ByFlush(step) {
        FlushConserves(s, step, m);
      } else {
        MovesConserve(s, step, m);
      }
    }
  }

  /** Acknowledged or waiting for an answer: only what some stream accepted. */
  ghost predicate Accepted(s: State) {
    && (forall m :: m in s.sent || m in s.unacked || m in s.acked ==> m in s.on)
    && (s.reconnect.Marking? ==> s.reconnect.msg in s.on)
  }

  /** A message leaves circulation only by an acknowledgment, out of `unacked`, and never comes back. */
  lemma LeavesByAcknowledgment(s: State, step: Step, m: nat)
    requires Accepted(s) && Enabled(s, step)
    ensures Accepted(Apply(s, step))
    ensures var t := Apply(s, step); t.acked[m] == s.acked[m] + if step.ServerMessage? then Count(s.unacked, m) else 0
  {
  }

  /** While a message is in one place, a goroutine that sends it is the only one to change its stream. */
  lemma SenderResends(s: State, step: Step)
    requires Conserved(s) && Resent(s) && Accepted(s) && Enabled(s, step) && BySender(step)
    ensures Resent(Apply(s, step))
  {
    assert Copies(s, step.msg) <= 1;
  }

  lemma FlushResends(s: State, step: Step)
    requires Conserved(s) && Resent(s) && Accepted(s) && Enabled(s, step) && ByFlush(step)
    ensures Resent(Apply(s, step))
  {
    match step
    case FlushMark => assert Copies(s, s.reconnect.msg) <= 1;
    case FlushOk => assert Copies(s, s.reconnect.todo[0]) <= 1;
    case _ =>
  }

  lemma StepResends(s: State, step: Step)
    requires Conserved(s) && Resent(s) && Accepted(s) && Enabled(s, step)
    ensures Resent(Apply(s, step))
  {
    if BySender(step) {
      SenderResends(s, step);
    } else if ByFlush(step) {
      FlushResends(s, step);
    }
  }

  lemma {:induction false} ResultsConserved(states: seq<State>, steps: seq<Step>, i: nat)
    requires Execution(states, steps) && i < |states|
    ensures Conserved(states[i]) && Resent(states[i]) && Accepted(states[i])
  {
    if i > 0 {
      ResultsConserved(states, steps, i - 1);
      StepConserves(states[i - 1], steps[i - 1]);
      StepResends(states[i - 1], steps[i - 1]);
      LeavesByAcknowledgment(states[i - 1], steps[i - 1], 0);
    }
  }

  /** What a server message confirms was sent on the present stream, except exactly what was noted late. */
  lemma ConfirmedExact(states: seq<State>, steps: seq<Step>, i: nat, m: nat)
    requires Execution(states, steps) && i < |steps| && steps[i].ServerMessage? && m in states[i].unacked
    ensures var s := states[i]; m in s.on && (Some(s.on[m]) == s.stream <==> m !in s.late)
    ensures Copies(states[i + 1], m) == states[i + 1].acked[m] == 1
  {
    ResultsConserved(states, steps, i);
    ResultsConserved(states, steps, i + 1);
    var s, t := states[i], states[i + 1];
    assert Copies(t, m) == One(m in t.produced);
    assert Copies(s, m) == One(m in s.produced);
    assert t.acked[m] >= Count(s.unacked, m) >= 1;
  }

  /** A result is sent on stream 1, which is replaced before the sender notes it: a message on stream 2 confirms
      it although it was never sent there. */
  lemma LateNoteIsConfirmed() returns (states: seq<State>, steps: seq<Step>)
    ensures Execution(states, steps)
    ensures var s := states[|steps|]; s.acked[7] == 1 && s.on == map[7 := 1] && s.stream == Some(2) && s.pending == s.unacked == []
  {
    states, steps := [State(None, {}, {}, map[], {}, [], [], multiset{}, Idle, map[], {})], [];
    states, steps := Reconnected(states, steps, 1);
    states, steps := Extend(states, steps, Produce(7));
    states, steps := Extend(states, steps, Read(7));
    states, steps := Extend(states, steps, SendOk(7));
    states, steps := Reconnected(states, steps, 2);
    states, steps := Extend(states, steps, Mark(7));
    states, steps := Extend(states, steps, ServerMessage);
  }

  lemma Extend(states: seq<State>, steps: seq<Step>, step: Step) returns (states': seq<State>, steps': seq<Step>)
    requires Execution(states, steps) && Enabled(states[|steps|], step)
    ensures Execution(states', steps')
    ensures |steps'| == |steps| + 1 && states'[|steps'|] == Apply(states[|steps|], step)
  {
    states', steps' := states + [Apply(states[|steps|], step)], steps + [step];
  }

  /** A reconnection that finds nothing to send again. */
  lemma Reconnected(states: seq<State>, steps: seq<Step>, stream: nat) returns (states': seq<State>, steps': seq<Step>)
    requires Execution(states, steps) && Enabled(states[|steps|], Connect(stream))
    requires states[|steps|].pending == states[|steps|].unacked == []
    ensures Execution(states', steps') && |steps'| == |steps| + 5
    ensures states'[|steps'|] == states[|steps|].(stream := Some(stream))
  {
    states', steps' := Extend(states, steps, Connect(stream));
    states', steps' := Extend(states', steps', TakeUnacked);
    states', steps' := Extend(states', steps', PutBack);
    states', steps' := Extend(states', steps', TakePending);
    states', steps' := Extend(states', steps', FlushEnds);
  }
}
