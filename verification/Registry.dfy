/** The registry of agent streams (internal/server/agentreg/registry.go). A guarded message, one sent with
    the demand for safe-restore capability, is only ever on a stream that reported the capability itself. */
module StreamRegistry {
  import opened RestorePhases

  const Room: nat := 32

  datatype Message = Message(id: nat, guarded: bool)

  datatype SendError = NotConnected | NoCapabilityYet | UnsafeDatabaseRestore | StreamClosed

  /** `open`: its context is not cancelled; `vouched`: it once reported the capability. */
  class Stream {
    const agent: nat
    var channel: seq<Message>
    var open: bool
    var capsReady: bool
    var safeDBRestore: bool
    ghost var vouched: bool

    constructor (agent: nat)
      ensures this.agent == agent && channel == [] && open && !capsReady && !safeDBRestore && !vouched
    {
      this.agent := agent;
      channel, open, capsReady, safeDBRestore, vouched := [], true, false, false, false;
    }

    predicate Ok()
      reads this
    {
      (safeDBRestore ==> capsReady) && |channel| <= Room
    }

    ghost predicate Guarded()
      reads this
    {
      && Ok() && (safeDBRestore ==> vouched)
      && forall i :: 0 <= i < |channel| && channel[i].guarded ==> vouched
    }
  }

  class Registry {
    var streams: map<nat, Stream>
    ghost var all: set<Stream>   // every stream ever registered

    /** Streams are registered under their agent; those no longer registered are cancelled; and no stream
        carries a guarded message without having vouched for itself. */
    ghost predicate Valid()
      reads this, all
    {
      && (forall a :: a in streams ==> streams[a] in all && streams[a].agent == a)
      && (forall st :: st in all ==> st.Guarded())
      && (forall st :: st in all && (st.agent !in streams || streams[st.agent] != st) ==> !st.open)
    }

    constructor ()
      ensures Valid() && streams == map[] && all == {}
    {
      streams, all := map[], {};
    }

    /** A new stream takes over, without any capability; the one it replaces is cancelled. */
    method Register(agent: nat) returns (st: Stream)
      requires Valid()
      modifies this, if agent in streams then {streams[agent]} else {}
      ensures Valid() && fresh(st) && streams == old(streams)[agent := st] && all == old(all) + {st}
      ensures st.open && !st.capsReady && !st.safeDBRestore && st.channel == []
      ensures agent in old(streams) ==> var was := old(streams[agent]);
        !was.open && was.channel == old(was.channel) && was.vouched == old(was.vouched)
    {
      if agent in streams {
        streams[agent].open := false;
      }
      st := new Stream(agent);
      streams := streams[agent := st];
      all := all + {st};
    }

    /** Only the stream itself is removed, never the one that replaced it. */
    method UnregisterIf(agent: nat, st: Stream) returns (removed: bool)
      requires Valid() && st in all
      modifies this`streams, st`open
      ensures Valid() && removed == (agent in old(streams) && old(streams[agent]) == st)
      ensures streams == if removed then old(streams) - {agent} else old(streams)
      ensures st.open == (old(st.open) && !removed)
    {
      if agent !in streams || streams[agent] != st {
        return false;
      }
      st.open := false;
      streams := streams - {agent};
      return true;
    }

    /** First step of ReportCapabilities, under the registry's lock. */
    method IsCurrent(agent: nat, st: Stream) returns (current: bool)
      ensures current == (agent in streams && streams[agent] == st)
    {
      return agent in streams && streams[agent] == st;
    }

    /** Second step, under the lock of the record. Whatever happened to the registry since the first one, the
        report changes only the record of the stream it came on, which has then vouched for itself. */
    method Record(st: Stream, safe: bool)
      requires Valid() && st in all
      modifies st`capsReady, st`safeDBRestore, st`vouched
      ensures Valid()
      ensures st.capsReady && st.safeDBRestore == safe && st.vouched == (old(st.vouched) || safe)
    {
      st.capsReady := true;
      st.safeDBRestore := safe;
      st.vouched := st.vouched || safe;
    }

    /** Both steps, when nothing comes between them: a report counts only for the stream it came on, and only
        while that stream is registered. */
    method ReportCapabilities(agent: nat, st: Stream, safe: bool) returns (recorded: bool)
      requires Valid() && st in all
      modifies st`capsReady, st`safeDBRestore, st`vouched
      ensures Valid() && recorded == (agent in streams && streams[agent] == st)
      ensures recorded ==> st.capsReady && st.safeDBRestore == safe && st.vouched == (old(st.vouched) || safe)
      ensures !recorded ==> st.capsReady == old(st.capsReady) && st.safeDBRestore == old(st.safeDBRestore) && st.vouched == old(st.vouched)
    {
      recorded := IsCurrent(agent, st);
      if recorded {
        Record(st, safe);
      }
    }

    /** First step of SendWithCapability, under the registry's lock. */
    method Find(agent: nat) returns (st: Option<Stream>)
      ensures st == if agent in streams then Some(streams[agent]) else None
    {
      return if agent in streams then Some(streams[agent]) else None;
    }

    /** Second step, under the lock of the record: the verdict on the stream that was found, whatever happened
        to the registry since. Without an error and with the demand, that stream has vouched for itself. */
    method Verdict(st: Stream, requireSafe: bool) returns (err: Option<SendError>)
      requires Valid() && st in all
      ensures err == None <==> st.capsReady && (requireSafe ==> st.safeDBRestore)
      ensures err == None && requireSafe ==> st.vouched
      ensures err == Some(NoCapabilityYet) <==> !st.capsReady
      ensures err == Some(UnsafeDatabaseRestore) <==> st.capsReady && requireSafe && !st.safeDBRestore
    {
      if !st.capsReady {
        return Some(NoCapabilityYet);
      }
      if requireSafe && !st.safeDBRestore {
        return Some(UnsafeDatabaseRestore);
      }
      return None;
    }

    /** Both steps, when nothing comes between them. */
    method Checked(agent: nat, requireSafe: bool) returns (r: Lookup)
      requires Valid()
      ensures r.Bound? <==> agent in streams && streams[agent].capsReady && (requireSafe ==> streams[agent].safeDBRestore)
      ensures r.Bound? ==> r.stream == streams[agent] && (requireSafe ==> r.stream.vouched)
      ensures r == Refused(NotConnected) <==> agent !in streams
      ensures r == Refused(NoCapabilityYet) <==> agent in streams && !streams[agent].capsReady
      ensures r == Refused(UnsafeDatabaseRestore) <==>
        agent in streams && streams[agent].capsReady && requireSafe && !streams[agent].safeDBRestore
    {
      var found := Find(agent);
      if found.None? {
        return Refused(NotConnected);
      }
      var err := Verdict(found.value, requireSafe);
      return if err.Some? then Refused(err.value) else Bound(found.value);
    }

    /** The last step, a select that waits until the channel has room or the stream is cancelled; when both
        hold, either case may be taken (`coin`). Whatever happened to the registry in between, the message
        goes to the stream that was checked or nowhere: `vouched` is never taken back. */
    method Deliver(st: Stream, msg: Message, coin: bool) returns (err: Option<SendError>)
      requires Valid() && st in all && (msg.guarded ==> st.vouched)
      requires |st.channel| < Room || !st.open
      modifies st`channel
      ensures Valid()
      ensures err == None || err == Some(StreamClosed)
      ensures st.channel == if err == None then old(st.channel) + [msg] else old(st.channel)
      ensures st.open ==> err == None
      ensures |old(st.channel)| == Room ==> err == Some(StreamClosed)
    {
      if |st.channel| < Room && (st.open || coin) {
        st.channel := st.channel + [msg];
        return None;
      }
      return Some(StreamClosed);
    }

    /** All steps together, when nothing comes between them. */
    method SendWithCapability(agent: nat, id: nat, requireSafe: bool, coin: bool) returns (err: Option<SendError>)
      requires Valid() && (agent in streams ==> |streams[agent].channel| < Room || !streams[agent].open)
      modifies if agent in streams then {streams[agent]} else {}
      ensures Valid()
      ensures err == None ==>
        && agent in streams && streams[agent].capsReady && (requireSafe ==> streams[agent].safeDBRestore)
        && streams[agent].channel == old(streams[agent].channel) + [Message(id, requireSafe)]
      ensures err != None && agent in streams ==> streams[agent].channel == old(streams[agent].channel)
      ensures (agent in streams && streams[agent].capsReady && streams[agent].open && (requireSafe ==> streams[agent].safeDBRestore)) ==> err == None
    {
      var r := Checked(agent, requireSafe);
      match r
      case Refused(e) => err := Some(e);
      case Bound(st) => err := Deliver(st, Message(id, requireSafe), coin);
    }

    method Send(agent: nat, id: nat, coin: bool) returns (err: Option<SendError>)
      requires Valid() && (agent in streams ==> |streams[agent].channel| < Room || !streams[agent].open)
      modifies if agent in streams then {streams[agent]} else {}
      ensures Valid()
      ensures err == Some(NotConnected) <==> agent !in streams
      ensures err == None ==> streams[agent].channel == old(streams[agent].channel) + [Message(id, false)]
      ensures err == Some(StreamClosed) ==> streams[agent].channel == old(streams[agent].channel) && !streams[agent].open
    {
      if agent !in streams {
        return Some(NotConnected);
      }
      err := Deliver(streams[agent], Message(id, false), coin);
    }
  }

  datatype Lookup = Refused(error: SendError) | Bound(stream: Stream)
}
