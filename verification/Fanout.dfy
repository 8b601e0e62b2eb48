/** The event bus of a run's live subscribers (internal/server/events/fanout.go): publishers send to a
    snapshot of the subscribers, a subscriber whose channel is full is dropped. */
module Fanout {

  /** The index-th event that the producer publishes for a run. */
  datatype Event = Event(producer: nat, index: nat)

  const Capacity: nat := 256

  /** `open`: the channel is not closed; `panicked`: a send on a closed channel, or a second close. */
  datatype Channel = Channel(buf: seq<Event>, open: bool, panicked: bool)

  function ChannelSend(c: Channel, ev: Event): Channel {
    if c.open then c.(buf := c.buf + [ev]) else c.(panicked := true)
  }

  function ChannelClose(c: Channel): Channel {
    if c.open then c.(open := false) else c.(panicked := true)
  }

  datatype Sub = Sub(ch: Channel, off: bool)

  /** The part of Publish under the subscriber's mutex. */
  function Offered(u: Sub, ev: Event): Sub {
    if u.off then u
    else if |u.ch.buf| < Capacity then u.(ch := ChannelSend(u.ch, ev))
    else Sub(ChannelClose(u.ch), true)
  }

  /** The part of remove under the subscriber's mutex. */
  function Ended(u: Sub): Sub {
    if u.off then u else Sub(ChannelClose(u.ch), true)
  }

  // ----- the bus in memory ---------------------------------------------------------------

  class Subscriber {
    var ch: Channel
    var off: bool

    function View(): Sub
      reads this
    {
      Sub(ch, off)
    }

    constructor ()
      ensures View() == Sub(Channel([], true, false), false)
    {
      ch, off := Channel([], true, false), false;
    }

    /** Returns whether the subscriber was dropped. */
    method Offer(ev: Event) returns (dropped: bool)
      modifies this
      ensures View() == Offered(old(View()), ev) && dropped == (off && !old(off))
    {
      if off {
        return false;
      }
      if |ch.buf| < Capacity {
        ch := ChannelSend(ch, ev);
        return false;
      }
      off := true;
      ch := ChannelClose(ch);
      return true;
    }
  }

  class Bus {
    var subs: map<nat, set<Subscriber>>

    function Of(run: nat): set<Subscriber>
      reads this
    {
      if run in subs then subs[run] else {}
    }

    /** No empty sets are kept. */
    ghost predicate Valid()
      reads this
    {
      forall r :: r in subs ==> subs[r] != {}
    }

    constructor ()
      ensures Valid() && subs == map[]
    {
      subs := map[];
    }

    method Subscribe(run: nat) returns (sub: Subscriber)
      requires Valid()
      modifies this
      ensures Valid() && fresh(sub) && sub.View() == Sub(Channel([], true, false), false)
      ensures Of(run) == old(Of(run)) + {sub} && forall r :: r != run ==> Of(r) == old(Of(r))
    {
      sub := new Subscriber();
      subs := subs[run := Of(run) + {sub}];
    }

    method Detach(run: nat, sub: Subscriber)
      requires Valid()
      modifies this
      ensures Valid() && Of(run) == old(Of(run)) - {sub} && forall r :: r != run ==> Of(r) == old(Of(r))
    {
      if run in subs {
        subs := subs[run := subs[run] - {sub}];
        if subs[run] == {} {
          subs := subs - {run};
        }
      }
    }

    /** The cancel function that Subscribe hands out. */
    method Remove(run: nat, sub: Subscriber)
      requires Valid()
      modifies this, sub
      ensures Valid() && sub.View() == Ended(old(sub.View()))
      ensures Of(run) == (if old(sub.off) then old(Of(run)) else old(Of(run)) - {sub}) && forall r :: r != run ==> Of(r) == old(Of(r))
    {
      if sub.off {
        return;
      }
      sub.off := true;
      sub.ch := ChannelClose(sub.ch);
      Detach(run, sub);
    }

    /** Every subscriber of the run is offered the event once; those whose channel is full are dropped. */
    method Publish(run: nat, ev: Event)
      requires Valid()
      modifies this, Of(run)
      ensures Valid() && forall r :: r != run ==> Of(r) == old(Of(r))
      ensures forall s :: s in old(Of(run)) ==> s.View() == Offered(old(s.View()), ev)
      ensures Of(run) == set s | s in old(Of(run)) && (s.off ==> old(s.off))
    {
      var all := Of(run);
      var todo := all;
      while todo != {}
        invariant todo <= all && Valid()
        invariant forall r :: r != run ==> Of(r) == old(Of(r))
        invariant forall s :: s in todo ==> s.View() == old(s.View())
        invariant forall s :: s in all - todo ==> s.View() == Offered(old(s.View()), ev)
        invariant Of(run) == set s | s in all && (s in todo || !s.off || old(s.off))
      {
        var s :| s in todo;
        todo := todo - {s};
        var dropped := s.Offer(ev);
        if dropped {
          Detach(run, s);
        }
      }
    }
  }

  // ----- the step system -----------------------------------------------------------------

  /** A publisher: between events, offering one to its snapshot, or detaching a subscriber it dropped. */
  datatype Pc = Idle | Sending(run: nat, todo: set<nat>) | Detaching(run: nat, todo: set<nat>, sub: nat)

  /** `sent` and `start` record history: the events put on the channel, and how many events each producer
      had published for the run when it was subscribed; `got`: what the consumer received. */
  datatype Client = Client(run: nat, u: Sub, got: seq<Event>, sent: seq<Event>, start: nat -> nat)

  datatype State = State(
    clients: map<nat, Client>,
    attached: set<nat>,            // in the bus's map, under their run
    cancelling: set<nat>,          // closed by remove, not detached yet
    published: map<(nat, nat), nat>,   // how many events a producer has published for a run
    producers: map<nat, Pc>)

  datatype Step =
    | Subscribe(sub: nat, run: nat)
    | Snapshot(p: nat, run: nat)
    | Offer(p: nat, sub: nat)
    | Detach(p: nat)
    | Finish(p: nat)
    | Cancel(sub: nat)
    | CancelDetach(sub: nat)
    | Receive(sub: nat)

  function PcOf(s: State, p: nat): Pc {
    if p in s.producers then s.producers[p] else Idle
  }

  function Published(s: State, p: nat, run: nat): nat {
    if (p, run) in s.published then s.published[(p, run)] else 0
  }

  predicate Enabled(s: State, step: Step) {
    match step
    case Subscribe(c, _) => c !in s.clients
    case Snapshot(p, _) => PcOf(s, p).Idle?
    case Offer(p, c) => PcOf(s, p).Sending? && c in PcOf(s, p).todo && c in s.clients && Published(s, p, PcOf(s, p).run) > 0
    case Detach(p) => PcOf(s, p).Detaching?
    case Finish(p) => PcOf(s, p).Sending? && PcOf(s, p).todo == {}
    case Cancel(c) => c in s.clients
    case CancelDetach(c) => c in s.cancelling
    case Receive(c) => c in s.clients && s.clients[c].u.ch.buf != []
  }

  function Go(s: State, p: nat, pc: Pc): State {
    s.(producers := s.producers[p := pc])
  }

  function SetClient(s: State, c: nat, client: Client): State {
    s.(clients := s.clients[c := client])
  }

  /** The offer to one client, with what it adds to the channel's history. */
  function OfferedTo(client: Client, ev: Event): Client {
    client.(u := Offered(client.u, ev), sent := if client.u.off || |client.u.ch.buf| >= Capacity then client.sent else client.sent + [ev])
  }

  function Apply(s: State, step: Step): State
    requires Enabled(s, step)
  {
    match step
    case Subscribe(c, run) =>
      SetClient(s.(attached := s.attached + {c}), c,
                Client(run, Sub(Channel([], true, false), false), [], [], p => Published(s, p, run)))
    case Snapshot(p, run) =>
      Go(s.(published := s.published[(p, run) := Published(s, p, run) + 1]), p,
         Sending(run, set c | c in s.attached && c in s.clients && s.clients[c].run == run))
    case Offer(p, c) =>
      var pc := PcOf(s, p);
      var after := OfferedTo(s.clients[c], Event(p, Published(s, p, pc.run) - 1));
      var dropped := after.u.off && !s.clients[c].u.off;
      Go(SetClient(s, c, after), p, if dropped then Detaching(pc.run, pc.todo - {c}, c) else Sending(pc.run, pc.todo - {c}))
    case Detach(p) =>
      var pc := PcOf(s, p);
      Go(s.(attached := s.attached - {pc.sub}), p, Sending(pc.run, pc.todo))
    case Finish(p) => Go(s, p, Idle)
    case Cancel(c) =>
      var client := s.clients[c];
      SetClient(s.(cancelling := if client.u.off then s.cancelling else s.cancelling + {c}), c, client.(u := Ended(client.u)))
    case CancelDetach(c) => s.(attached := s.attached - {c}, cancelling := s.cancelling - {c})
    case Receive(c) =>
      var client := s.clients[c];
      SetClient(s, c, client.(u := client.u.(ch := client.u.ch.(buf := client.u.ch.buf[1..])), got := client.got + [client.u.ch.buf[0]]))
  }

  ghost predicate Initial(s: State) {
    s == State(map[], {}, {}, map[], map[])
  }

  ghost predicate Execution(states: seq<State>, steps: seq<Step>) {
    && |states| == |steps| + 1
    && Initial(states[0])
    && forall i :: 0 <= i < |steps| ==> Enabled(states[i], steps[i]) && states[i + 1] == Apply(states[i], steps[i])
  }

  // ----- what every subscriber gets ------------------------------------------------------

  /** The events of one producer, in the order they were sent. */
  function From(sent: seq<Event>, p: nat): seq<Event> {
    if sent == [] then []
    else From(sent[..|sent| - 1], p) + if sent[|sent| - 1].producer == p then [sent[|sent| - 1]] else []
  }

  predicate GapFree(events: seq<Event>, p: nat, start: nat) {
    forall i :: 0 <= i < |events| ==> events[i] == Event(p, start + i)
  }

  /** The producer's newest event is still to be offered to the client. */
  predicate Ahead(s: State, p: nat, c: nat) {
    var pc := PcOf(s, p);
    !pc.Idle? && c in pc.todo
  }

  /** How many of the producer's events for the client's run it has dealt with. */
  function Due(s: State, p: nat, c: nat): int
    requires c in s.clients
  {
    Published(s, p, s.clients[c].run) - if Ahead(s, p, c) then 1 else 0
  }

  /** From each producer, a gap-free run of its events that starts at the subscription; it is complete, up
      to an offer under way, as long as the subscriber has not ended. */
  ghost predicate Gets(s: State, c: nat)
    requires c in s.clients
  {
    var client := s.clients[c];
    forall p ::
      var events := From(client.sent, p);
      && GapFree(events, p, client.start(p))
      && client.start(p) + |events| <= Due(s, p, c)
      && (!client.u.off ==> client.start(p) + |events| == Due(s, p, c))
  }

  /** The channel was closed exactly when the subscriber ended, nothing was ever sent on it or closed
      again afterwards, and what is not received yet waits in order, up to the capacity. */
  predicate ClientOk(client: Client) {
    && client.u.ch.open == !client.u.off && !client.u.ch.panicked
    && client.sent == client.got + client.u.ch.buf && |client.u.ch.buf| <= Capacity
  }

  /** Only ended subscribers leave the map; a publisher holds only clients of its run. */
  ghost predicate Linked(s: State) {
    && (forall c :: c in s.clients && !s.clients[c].u.off ==> c in s.attached)
    && (forall c :: c in s.cancelling ==> c in s.clients && s.clients[c].u.off)
    && (forall p, c :: Ahead(s, p, c) ==> c in s.clients && s.clients[c].run == PcOf(s, p).run && Published(s, p, PcOf(s, p).run) > 0)
    && (forall p :: PcOf(s, p).Detaching? ==> PcOf(s, p).sub in s.clients && s.clients[PcOf(s, p).sub].u.off)
  }

  ghost predicate Inv(s: State) {
    Linked(s) && forall c :: c in s.clients ==> ClientOk(s.clients[c]) && Gets(s, c)
  }

  lemma StepLinks(s: State, step: Step)
    requires Inv(s) && Enabled(s, step)
    ensures Linked(Apply(s, step))
  {
    var t := Apply(s, step);
    forall p, c | Ahead(t, p, c)
      ensures c in t.clients && t.clients[c].run == PcOf(t, p).run && Published(t, p, PcOf(t, p).run) > 0
    {
      assert Ahead(s, p, c) || step.Snapshot?;
    }
    forall p | PcOf(t, p).Detaching?
      ensures PcOf(t, p).sub in t.clients && t.clients[PcOf(t, p).sub].u.off
    {
      assert PcOf(s, p).Detaching? || step.Offer?;
    }
  }

  lemma StepKeepsClient(s: State, step: Step, c: nat)
    requires Enabled(s, step) && c in Apply(s, step).clients && (c in s.clients ==> ClientOk(s.clients[c]))
    ensures ClientOk(Apply(s, step).clients[c])
  {
  }

  lemma OfferGets(s: State, p: nat, c: nat)
    requires Inv(s) && Enabled(s, Offer(p, c))
    ensures Gets(Apply(s, Offer(p, c)), c)
  {
    var client := s.clients[c];
    var ev := Event(p, Published(s, p, PcOf(s, p).run) - 1);
    var t := Apply(s, Offer(p, c));
    var after := t.clients[c];
    FromAppend(client.sent, ev);
    assert Ahead(s, p, c) && Gets(s, c);
    assert after.run == client.run == PcOf(s, p).run && after.start == client.start;
    assert client.u.off ==> after.u.off && after.sent == client.sent;
    assert !after.u.off ==> after.sent == client.sent + [ev];
    assert after.sent == client.sent || after.sent == client.sent + [ev];
    forall q
      ensures Due(t, q, c) == Due(s, q, c) + if q == p then 1 else 0
    {
    }
  }

  lemma FromAppend(sent: seq<Event>, ev: Event)
    ensures forall q :: From(sent + [ev], q) == From(sent, q) + if ev.producer == q then [ev] else []
  {
    assert (sent + [ev])[..|sent|] == sent;
  }

  /** A step that sends the client nothing. */
  lemma OthersGet(s: State, step: Step, c: nat)
    requires Inv(s) && Enabled(s, step) && c in s.clients && !(step.Offer? && step.sub == c)
    ensures Gets(Apply(s, step), c)
  {
    var t := Apply(s, step);
    assert Gets(s, c);
    assert t.clients[c].run == s.clients[c].run && t.clients[c].start == s.clients[c].start && t.clients[c].sent == s.clients[c].sent;
    assert s.clients[c].u.off ==> t.clients[c].u.off;
    forall p
      ensures Due(t, p, c) >= Due(s, p, c) && (!t.clients[c].u.off ==> Due(t, p, c) == Due(s, p, c))
    {
      assert !s.clients[c].u.off ==> c in s.attached;
      assert Ahead(s, p, c) ==> s.clients[c].run == PcOf(s, p).run;
    }
  }

  lemma StepGets(s: State, step: Step, c: nat)
    requires Inv(s) && Enabled(s, step) && c in Apply(s, step).clients
    ensures Gets(Apply(s, step), c)
  {
    if step.Offer? && step.sub == c {
      OfferGets(s, step.p, c);
    } else if c in s.clients {
      OthersGet(s, step, c);
    } else {
      NewGets(s, step, c);
    }
  }

  lemma NewGets(s: State, step: Step, c: nat)
    requires Inv(s) && Enabled(s, step) && c in Apply(s, step).clients && c !in s.clients
    ensures Gets(Apply(s, step), c)
  {
    var t := Apply(s, step);
    var client := t.clients[c];
    assert client.sent == [] && !client.u.off;
    forall p
      ensures From(client.sent, p) == [] && Due(t, p, c) == client.start(p)
    {
      assert !Ahead(s, p, c);
    }
  }

  /** In every reachable state the channels are sound, every client gets its gap-free runs, and a publisher
      can offer its event to whatever client is left in its snapshot. */
  lemma {:induction false} EveryClientServed(states: seq<State>, steps: seq<Step>, i: nat)
    requires Execution(states, steps) && i < |states|
    ensures Inv(states[i])
    ensures forall p, c :: PcOf(states[i], p).Sending? && Ahead(states[i], p, c) ==> Enabled(states[i], Offer(p, c))
  {
    if i > 0 {
      EveryClientServed(states, steps, i - 1);
      var s, step := states[i - 1], steps[i - 1];
      StepLinks(s, step);
      forall c | c in states[i].clients
        ensures ClientOk(states[i].clients[c]) && Gets(states[i], c)
      {
        StepKeepsClient(s, step, c);
        StepGets(s, step, c);
      }
    }
  }
}
