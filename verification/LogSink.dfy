/** The process log sink (internal/logging/sink.go): bytes are cut into lines, lines become numbered
    entries, entries go to the bound handler or wait in a bounded buffer. */
module LogSink {
  import opened RestorePhases

  /** The level, the type and the message are functions of `line`. */
  datatype Entry = Entry(seqNo: nat, line: string)

  type Handler = Entry -> bool   // false: the handler returned an error

  /** What never changes: the buffer's limit, and which lines are only white space. */
  datatype Config = Config(maxPending: nat, blank: string -> bool)

  /** `accepted`, `delivered` and `lost` record history. */
  datatype State = State(
    handler: Option<Handler>,
    pending: seq<Entry>,
    partialLine: string,
    nextSeq: nat,
    accepted: seq<Entry>,
    delivered: seq<Entry>,
    lost: seq<Entry>)

  // ----- lines ---------------------------------------------------------------------------

  /** strings.Split at the newlines: the complete lines, and what follows the last newline. */
  function Split(text: string): (r: (seq<string>, string)) {
    if text == "" then ([], "")
    else
      var (lines, rest) := Split(text[..|text| - 1]);
      if text[|text| - 1] == '\n' then (lines + [rest], "") else (lines, rest + [text[|text| - 1]])
  }

  function Joined(lines: seq<string>): string {
    if lines == [] then "" else Joined(lines[..|lines| - 1]) + lines[|lines| - 1] + "\n"
  }

  /** Splitting loses nothing and leaves no newline inside a line. */
  lemma {:induction false} SplitJoins(text: string)
    ensures Joined(Split(text).0) + Split(text).1 == text
    ensures '\n' !in Split(text).1 && forall line :: line in Split(text).0 ==> '\n' !in line
  {
    if text != "" {
      var before, x := Split(text[..|text| - 1]), text[|text| - 1];
      SplitJoins(text[..|text| - 1]);
      assert text == text[..|text| - 1] + [x];
      if x == '\n' {
        JoinedLast(before.0, before.1);
        assert Split(text) == (before.0 + [before.1], "");
      } else {
        assert Split(text) == (before.0, before.1 + [x]);
      }
    }
  }

  lemma JoinedLast(lines: seq<string>, line: string)
    ensures Joined(lines + [line]) == Joined(lines) + line + "\n"
  {
    assert (lines + [line])[..|lines|] == lines;
  }

  lemma {:induction false} SplitPlain(text: string)
    requires '\n' !in text
    ensures Split(text) == ([], text)
  {
    if text != "" {
      SplitPlain(text[..|text| - 1]);
      assert text == text[..|text| - 1] + [text[|text| - 1]];
    }
  }

  /** Splitting a text is splitting its first part, and then the rest of it joined to the second part. */
  lemma {:induction false} SplitAppend(a: string, b: string)
    ensures var first := Split(a); var second := Split(first.1 + b); Split(a + b) == (first.0 + second.0, second.1)
  {
    var first := Split(a);
    if b == "" {
      SplitJoins(a);
      SplitPlain(first.1);
      assert a + b == a && first.1 + b == first.1 && first.0 + [] == first.0;
    } else {
      var n := |b| - 1;
      SplitAppend(a, b[..n]);
      assert (a + b)[..|a| + n] == a + b[..n];
      assert (first.1 + b)[..|first.1| + n] == first.1 + b[..n];
      var second := Split(first.1 + b[..n]);
      assert first.0 + second.0 + [second.1] == first.0 + (second.0 + [second.1]);
    }
  }

  function TrimReturn(line: string): string {
    if line != "" && line[|line| - 1] == '\r' then line[..|line| - 1] else line
  }

  /** The entries of complete lines, numbered after n; blank lines are skipped and take no number. */
  function Entries(c: Config, lines: seq<string>, n: nat): (r: seq<Entry>)
    ensures |r| <= |lines| && forall i :: 0 <= i < |r| ==> r[i].seqNo == n + i + 1
  {
    if lines == [] then []
    else
      var before, line := Entries(c, lines[..|lines| - 1], n), TrimReturn(lines[|lines| - 1]);
      if c.blank(line) then before else before + [Entry(n + |before| + 1, line)]
  }

  lemma {:induction false} EntriesAppend(c: Config, a: seq<string>, b: seq<string>, n: nat)
    ensures Entries(c, a + b, n) == Entries(c, a, n) + Entries(c, b, n + |Entries(c, a, n)|)
  {
    if b == [] {
      assert a + b == a;
    } else {
      EntriesAppend(c, a, b[..|b| - 1], n);
      assert (a + b)[..|a| + |b| - 1] == a + b[..|b| - 1];
    }
  }

  // ----- delivery ------------------------------------------------------------------------

  /** appendPendingLocked: beyond the limit the oldest go. */
  function Pend(c: Config, s: State, entries: seq<Entry>): State {
    var all := s.pending + entries;
    if entries == [] || |all| <= c.maxPending then s.(pending := all)
    else s.(pending := all[|all| - c.maxPending..], lost := s.lost + all[..|all| - c.maxPending])
  }

  /** deliverLocked: the first error unbinds the handler, and what is left waits. */
  function Deliver(c: Config, s: State, h: Handler, entries: seq<Entry>): State
    decreases |entries|
  {
    if entries == [] then s
    else if h(entries[0]) then Deliver(c, s.(delivered := s.delivered + [entries[0]]), h, entries[1..])
    else Pend(c, s.(handler := None), entries)
  }

  function Route(c: Config, s: State, entries: seq<Entry>): State {
    match s.handler
    case Some(h) => Deliver(c, s, h, entries)
    case None => Pend(c, s, entries)
  }

  function Noted(s: State, partialLine: string, entries: seq<Entry>): State {
    s.(partialLine := partialLine, nextSeq := s.nextSeq + |entries|, accepted := s.accepted + entries)
  }

  /** The partial line and the entries that writing p leads to. */
  function Parsed(c: Config, partialLine: string, n: nat, p: string): (string, seq<Entry>) {
    var (lines, rest) := Split(partialLine + p);
    (rest, Entries(c, lines, n))
  }

  function Written(c: Config, s: State, p: string): State {
    var parsed := Parsed(c, s.partialLine, s.nextSeq, p);
    Route(c, Noted(s, parsed.0, parsed.1), parsed.1)
  }

  function Bound(c: Config, s: State, handler: Option<Handler>): State {
    match handler
    case Some(h) => Deliver(c, s.(handler := handler, pending := []), h, s.pending)
    case None => s.(handler := None)
  }

  // ----- the sink in memory --------------------------------------------------------------

  class Sink {
    const config: Config
    var handler: Option<Handler>
    var pending: seq<Entry>
    var partialLine: string
    var nextSeq: nat
    ghost var accepted: seq<Entry>
    ghost var delivered: seq<Entry>
    ghost var lost: seq<Entry>

    ghost function View(): State
      reads this
    {
      State(handler, pending, partialLine, nextSeq, accepted, delivered, lost)
    }

    ghost predicate Valid()
      reads this
    {
      Inv(config, View())
    }

    constructor (maxPending: int, blank: string -> bool)
      ensures config == Config(if maxPending <= 0 then 2048 else maxPending, blank)
      ensures Valid() && View() == State(None, [], "", 0, [], [], [])
    {
      config := Config(if maxPending <= 0 then 2048 else maxPending, blank);
      handler, pending, partialLine, nextSeq := None, [], "", 0;
      accepted, delivered, lost := [], [], [];
    }

    method SetHandler(h: Option<Handler>)
      requires Valid()
      modifies this
      ensures Valid() && View() == Bound(config, old(View()), h)
    {
      BoundKeeps(config, View(), h);
      handler := h;
      if h.Some? {
        var waiting := pending;
        pending := [];
        DeliverLocked(h.value, waiting);
      }
    }

    method ClearHandler()
      requires Valid()
      modifies this
      ensures Valid() && View() == Bound(config, old(View()), None)
    {
      handler := None;
    }

    method Write(p: string)
      requires Valid()
      modifies this
      ensures Valid() && View() == Written(config, old(View()), p)
    {
      if |p| == 0 {
        NothingWritten(config, View());
        return;
      }
      var lines, rest := SplitLines(partialLine + p);
      partialLine := rest;
      var entries := Number(lines);
      if handler.Some? {
        DeliverLocked(handler.value, entries);
      } else {
        AppendPendingLocked(entries);
      }
      assert View() == Written(config, old(View()), p);
      WrittenKeeps(config, old(View()), p, View());
    }

    /** Blank lines are skipped, the others numbered. */
    method Number(lines: seq<string>) returns (entries: seq<Entry>)
      modifies this`nextSeq, this`accepted
      ensures entries == Entries(config, lines, old(nextSeq))
      ensures View() == Noted(old(View()), partialLine, entries)
    {
      entries := [];
      for i := 0 to |lines|
        invariant entries == Entries(config, lines[..i], old(nextSeq)) && nextSeq == old(nextSeq) + |entries|
        invariant accepted == old(accepted) + entries
      {
        assert lines[..i + 1][..i] == lines[..i];
        var line := TrimReturn(lines[i]);
        if !config.blank(line) {
          nextSeq := nextSeq + 1;
          entries := entries + [Entry(nextSeq, line)];
          accepted := accepted + [Entry(nextSeq, line)];
        }
      }
      assert lines[..|lines|] == lines;
    }

    method DeliverLocked(h: Handler, entries: seq<Entry>)
      modifies this
      ensures View() == Deliver(config, old(View()), h, entries)
    {
      for i := 0 to |entries|
        invariant Deliver(config, View(), h, entries[i..]) == Deliver(config, old(View()), h, entries)
      {
        assert entries[i..][1..] == entries[i + 1..];
        if !h(entries[i]) {
          handler := None;
          AppendPendingLocked(entries[i..]);
          return;
        }
        delivered := delivered + [entries[i]];
      }
    }

    method AppendPendingLocked(entries: seq<Entry>)
      modifies this`pending, this`lost
      ensures View() == Pend(config, old(View()), entries)
    {
      if |entries| == 0 {
        return;
      }
      pending := pending + entries;
      if |pending| > config.maxPending {
        lost := lost + pending[..|pending| - config.maxPending];
        pending := pending[|pending| - config.maxPending..];
      }
    }
  }

  method SplitLines(text: string) returns (lines: seq<string>, rest: string)
    ensures (lines, rest) == Split(text)
  {
    lines, rest := [], "";
    for i := 0 to |text|
      invariant (lines, rest) == Split(text[..i])
    {
      assert text[..i + 1][..i] == text[..i];
      if text[i] == '\n' {
        lines, rest := lines + [rest], "";
      } else {
        rest := rest + [text[i]];
      }
    }
    assert text[..|text|] == text;
  }

  // ----- the invariant -------------------------------------------------------------------

  predicate Ascending(s: seq<Entry>) {
    forall i, j :: 0 <= i < j < |s| ==> s[i].seqNo < s[j].seqNo
  }

  function Tail(s: seq<Entry>, n: nat): seq<Entry>
    requires n <= |s|
  {
    s[|s| - n..]
  }

  predicate UpTo(s: seq<Entry>, n: int) {
    forall i :: 0 <= i < |s| ==> s[i].seqNo <= n
  }

  /** `waiting` is the newest of what was accepted; all else was delivered or lost, each once, in order. */
  predicate Waits(s: State, waiting: seq<Entry>) {
    && |s.accepted| == s.nextSeq && (forall i :: 0 <= i < |s.accepted| ==> s.accepted[i].seqNo == i + 1)
    && |waiting| <= |s.accepted| && waiting == Tail(s.accepted, |waiting|)
    && multiset(s.delivered) + multiset(s.lost) + multiset(waiting) == multiset(s.accepted)
    && Ascending(s.delivered) && UpTo(s.delivered, s.nextSeq - |waiting|)
    && Ascending(s.lost) && UpTo(s.lost, s.nextSeq - |waiting|)
    && '\n' !in s.partialLine
  }

  /** Accepted entries are numbered from 1 in order; the newest of them wait, up to the limit; a bound
      handler leaves none waiting. */
  predicate Inv(c: Config, s: State) {
    Waits(s, s.pending) && |s.pending| <= c.maxPending && (s.handler.Some? ==> s.pending == [])
  }

  lemma AscendingJoin(a: seq<Entry>, b: seq<Entry>, n: int)
    requires Ascending(a) && UpTo(a, n) && forall i :: 0 <= i < |b| ==> b[i].seqNo == n + i + 1
    ensures Ascending(a + b) && UpTo(a + b, n + |b|)
  {
  }

  lemma WaitingNumbers(s: State, gone: seq<Entry>, waiting: seq<Entry>)
    requires Waits(s, gone + waiting)
    ensures forall i :: 0 <= i < |gone| ==> gone[i].seqNo == s.nextSeq - |gone + waiting| + i + 1
    ensures waiting == Tail(s.accepted, |waiting|)
    ensures multiset(gone + waiting) == multiset(gone) + multiset(waiting)
  {
    var all := gone + waiting;
    forall i | 0 <= i < |all|
      ensures all[i].seqNo == s.nextSeq - |all| + i + 1
    {
      assert Tail(s.accepted, |all|)[i] == s.accepted[|s.accepted| - |all| + i];
    }
    assert forall i :: 0 <= i < |gone| ==> gone[i] == all[i];
    assert waiting == all[|gone|..];
  }

  /** The oldest of what waits is delivered, or lost. */
  lemma OldestLeave(s: State, t: State, gone: seq<Entry>, waiting: seq<Entry>)
    requires Waits(s, gone + waiting)
    requires t.partialLine == s.partialLine && t.nextSeq == s.nextSeq && t.accepted == s.accepted
    requires (t.delivered == s.delivered + gone && t.lost == s.lost) || (t.delivered == s.delivered && t.lost == s.lost + gone)
    ensures Waits(t, waiting)
  {
    WaitingNumbers(s, gone, waiting);
    var n := s.nextSeq - |gone + waiting|;
    AscendingJoin(s.delivered, gone, n);
    AscendingJoin(s.lost, gone, n);
    assert multiset(s.delivered + gone) == multiset(s.delivered) + multiset(gone);
    assert multiset(s.lost + gone) == multiset(s.lost) + multiset(gone);
  }

  lemma PendKeeps(c: Config, s: State, entries: seq<Entry>)
    requires Waits(s, s.pending + entries) && |s.pending| <= c.maxPending && s.handler.None?
    ensures Inv(c, Pend(c, s, entries)) && LosesOldest(c, s, Pend(c, s, entries))
  {
    var all := s.pending + entries;
    var t := Pend(c, s, entries);
    if entries != [] && |all| > c.maxPending {
      var k := |all| - c.maxPending;
      assert all == all[..k] + all[k..];
      OldestLeave(s, t, all[..k], all[k..]);
      assert t.lost[|s.lost|..] == all[..k];
    }
  }

  /** A delivery goes through, or stops at an entry, and what is left from there on waits. */
  lemma {:induction false} DeliverStops(c: Config, s: State, h: Handler, entries: seq<Entry>) returns (i: nat)
    ensures i <= |entries|
    ensures Deliver(c, s, h, entries) ==
      if i == |entries| then s.(delivered := s.delivered + entries)
      else Pend(c, s.(handler := None, delivered := s.delivered + entries[..i]), entries[i..])
    decreases |entries|
  {
    if entries == [] || !h(entries[0]) {
      i := 0;
      assert s.delivered + entries[..0] == s.delivered && entries[0..] == entries;
    } else {
      var j := DeliverStops(c, s.(delivered := s.delivered + [entries[0]]), h, entries[1..]);
      i := j + 1;
      assert entries[1..][j..] == entries[i..];
      assert s.delivered + [entries[0]] + entries[1..][..j] == s.delivered + entries[..i];
      assert s.delivered + [entries[0]] + entries[1..] == s.delivered + entries;
    }
  }

  lemma DeliverKeeps(c: Config, s: State, h: Handler, entries: seq<Entry>)
    requires Waits(s, entries) && s.pending == [] && s.handler.Some?
    ensures Inv(c, Deliver(c, s, h, entries)) && LosesOldest(c, s, Deliver(c, s, h, entries))
  {
    var i := DeliverStops(c, s, h, entries);
    var t := s.(delivered := s.delivered + entries[..i]);
    assert entries == entries[..i] + entries[i..];
    OldestLeave(s, t, entries[..i], entries[i..]);
    if i < |entries| {
      assert t.pending + entries[i..] == entries[i..];
      PendKeeps(c, t.(handler := None), entries[i..]);
    } else {
      assert entries[..i] == entries && entries[i..] == [];
    }
  }

  /** What an operation loses are the oldest entries then waiting, and it leaves the buffer full. */
  predicate LosesOldest(c: Config, s: State, t: State) {
    && |s.lost| <= |t.lost| && t.lost[..|s.lost|] == s.lost
    && var gone := t.lost[|s.lost|..];
      gone != [] ==>
        && |t.pending| == c.maxPending && |gone| + |t.pending| <= |t.accepted|
        && gone + t.pending == Tail(t.accepted, |gone| + |t.pending|)
  }

  lemma NotedWaits(c: Config, s: State, p: string)
    requires Inv(c, s)
    ensures var parsed := Parsed(c, s.partialLine, s.nextSeq, p); Waits(Noted(s, parsed.0, parsed.1), s.pending + parsed.1)
  {
    var parsed := Parsed(c, s.partialLine, s.nextSeq, p);
    SplitJoins(s.partialLine + p);
    var t := Noted(s, parsed.0, parsed.1);
    assert Tail(t.accepted, |s.pending + parsed.1|) == s.pending + parsed.1;
    assert multiset(s.pending + parsed.1) == multiset(s.pending) + multiset(parsed.1);
  }

  lemma RouteKeeps(c: Config, s: State, entries: seq<Entry>, t: State)
    requires Waits(s, s.pending + entries) && |s.pending| <= c.maxPending && (s.handler.Some? ==> s.pending == [])
    requires t == Route(c, s, entries)
    ensures Inv(c, t) && LosesOldest(c, s, t)
  {
    match s.handler
    case Some(h) =>
      assert s.pending + entries == entries;
      DeliverKeeps(c, s, h, entries);
    case None => PendKeeps(c, s, entries);
  }

  /** A write keeps the invariant, and loses entries only as the oldest beyond the limit. */
  lemma WrittenKeeps(c: Config, s: State, p: string, t: State)
    requires Inv(c, s) && t == Written(c, s, p)
    ensures Inv(c, t) && LosesOldest(c, s, t)
  {
    var parsed := Parsed(c, s.partialLine, s.nextSeq, p);
    var noted := Noted(s, parsed.0, parsed.1);
    assert Waits(noted, noted.pending + parsed.1) by {
      NotedWaits(c, s, p);
    }
    RouteKeeps(c, noted, parsed.1, t);
  }

  lemma BoundKeeps(c: Config, s: State, handler: Option<Handler>)
    requires Inv(c, s)
    ensures Inv(c, Bound(c, s, handler))
  {
    if handler.Some? {
      DeliverKeeps(c, s.(handler := handler, pending := []), handler.value, s.pending);
    }
  }

  /** Binding a handler, even one that fails at once, loses nothing. */
  lemma BoundKeepsAll(c: Config, s: State, handler: Option<Handler>)
    requires Inv(c, s)
    ensures Bound(c, s, handler).lost == s.lost
  {
    if handler.Some? {
      var i := DeliverStops(c, s.(handler := handler, pending := []), handler.value, s.pending);
    }
  }

  // ----- the cut into writes does not matter ---------------------------------------------

  lemma PendAppend(c: Config, s: State, a: seq<Entry>, b: seq<Entry>)
    requires |s.pending| <= c.maxPending
    ensures Pend(c, Pend(c, s, a), b) == Pend(c, s, a + b)
  {
    var all := s.pending + a;
    assert all + b == s.pending + (a + b);
    assert s.pending + [] == s.pending && a + [] == a;
    if a != [] && |all| > c.maxPending {
      var k := |all| - c.maxPending;
      assert all[k..] + b == (all + b)[k..];
      assert all[..k] == (all + b)[..k];
    }
  }

  lemma {:induction false} DeliverAppend(c: Config, s: State, h: Handler, a: seq<Entry>, b: seq<Entry>)
    requires s.handler == Some(h) && s.pending == []
    ensures Route(c, Deliver(c, s, h, a), b) == Deliver(c, s, h, a + b)
    decreases |a|
  {
    if a == [] {
      assert a + b == b;
    } else {
      assert (a + b)[1..] == a[1..] + b;
      if h(a[0]) {
        DeliverAppend(c, s.(delivered := s.delivered + [a[0]]), h, a[1..], b);
      } else {
        PendAppend(c, s.(handler := None), a, b);
      }
    }
  }

  /** Noting further lines commutes with routing: routing does not look at what Noted changes. */
  lemma {:induction false} DeliverNoted(c: Config, s: State, h: Handler, e: seq<Entry>, partialLine: string, more: seq<Entry>)
    ensures Noted(Deliver(c, s, h, e), partialLine, more) == Deliver(c, Noted(s, partialLine, more), h, e)
    decreases |e|
  {
    if e != [] && h(e[0]) {
      DeliverNoted(c, s.(delivered := s.delivered + [e[0]]), h, e[1..], partialLine, more);
    }
  }

  lemma RouteKeepsNotes(c: Config, s: State, e: seq<Entry>)
    ensures var t := Route(c, s, e); t.partialLine == s.partialLine && t.nextSeq == s.nextSeq && t.accepted == s.accepted
  {
    if s.handler.Some? {
      var i := DeliverStops(c, s, s.handler.value, e);
    }
  }

  lemma RouteTwice(c: Config, s: State, r1: string, a: seq<Entry>, r2: string, b: seq<Entry>)
    requires |s.pending| <= c.maxPending && (s.handler.Some? ==> s.pending == [])
    ensures Route(c, Noted(Route(c, Noted(s, r1, a), a), r2, b), b) == Route(c, Noted(s, r2, a + b), a + b)
  {
    var one := Noted(s, r1, a);
    var both := Noted(one, r2, b);
    assert both == Noted(s, r2, a + b) by {
      assert s.accepted + a + b == s.accepted + (a + b);
    }
    match s.handler
    case Some(h) =>
      DeliverNoted(c, one, h, a, r2, b);
      DeliverAppend(c, both, h, a, b);
    case None =>
      PendAppend(c, both, a, b);
  }

  lemma ParsedAppend(c: Config, partialLine: string, n: nat, p: string, q: string)
    ensures var first := Parsed(c, partialLine, n, p);
      var second := Parsed(c, first.0, n + |first.1|, q);
      Parsed(c, partialLine, n, p + q) == (second.0, first.1 + second.1)
  {
    var split := Split(partialLine + p);
    SplitAppend(partialLine + p, q);
    assert partialLine + p + q == partialLine + (p + q);
    EntriesAppend(c, split.0, Split(split.1 + q).0, n);
  }

  /** Two writes do what one write of their concatenation does: same entries delivered, waiting and lost,
      same partial line, same numbering, same handler. */
  lemma WrittenAppend(c: Config, s: State, p: string, q: string)
    requires Inv(c, s)
    ensures Written(c, Written(c, s, p), q) == Written(c, s, p + q)
  {
    var first := Parsed(c, s.partialLine, s.nextSeq, p);
    var second := Parsed(c, first.0, s.nextSeq + |first.1|, q);
    var noted := Noted(s, first.0, first.1);
    assert Written(c, Written(c, s, p), q) == Route(c, Noted(Route(c, noted, first.1), second.0, second.1), second.1) by {
      RouteKeepsNotes(c, noted, first.1);
    }
    assert Parsed(c, s.partialLine, s.nextSeq, p + q) == (second.0, first.1 + second.1) by {
      ParsedAppend(c, s.partialLine, s.nextSeq, p, q);
    }
    RouteTwice(c, s, first.0, first.1, second.0, second.1);
  }

  lemma NothingWritten(c: Config, s: State)
    requires Inv(c, s)
    ensures Written(c, s, "") == s
  {
    assert s.partialLine + "" == s.partialLine;
    SplitPlain(s.partialLine);
    assert s.pending + [] == s.pending;
    assert s.accepted + [] == s.accepted;
  }

  function WrittenAll(c: Config, s: State, chunks: seq<string>): State
    decreases |chunks|
  {
    if chunks == [] then s else WrittenAll(c, Written(c, s, chunks[0]), chunks[1..])
  }

  function Concat(chunks: seq<string>): string {
    if chunks == [] then "" else chunks[0] + Concat(chunks[1..])
  }

  /** Any cut of the byte stream into writes gives the state that one write of it gives. */
  lemma {:induction false} ChunkingIsIrrelevant(c: Config, s: State, chunks: seq<string>)
    requires Inv(c, s)
    ensures WrittenAll(c, s, chunks) == Written(c, s, Concat(chunks))
    decreases |chunks|
  {
    if chunks == [] {
      NothingWritten(c, s);
    } else {
      WrittenKeeps(c, s, chunks[0], Written(c, s, chunks[0]));
      ChunkingIsIrrelevant(c, Written(c, s, chunks[0]), chunks[1..]);
      WrittenAppend(c, s, chunks[0], Concat(chunks[1..]));
    }
  }
}
