/** The keys that make equal tasks join one run (internal/server/jobs/orchestrator.go), and how the scheduler
    reads the parameters back out of them (internal/server/scheduler/scheduler.go). */
module DedupKeys {
  import opened RestorePhases

  const Nul: char := '\0'

  /** A task for which runs are deduplicated; `params` and `target` are JSON texts. */
  datatype Task =
    | Manual(planID: string)
    | System(agentID: string, repositoryID: string, operation: string, params: string, confFingerprint: string)
    | Restore(repoID: string, targetAgentID: string, snapshotID: string, kind: string, target: string,
              overwrite: bool, credentialFingerprint: string)

  function ManualRunDedupKey(planID: string): string {
    "plan\0" + planID
  }

  function SystemRunDedupKey(agentID: string, repositoryID: string, operation: string, params: string, confFingerprint: string): string {
    var key := "sys\0" + operation + "\0" + agentID + "\0" + repositoryID + "\0" + params;
    if confFingerprint != "" then key + "\0" + confFingerprint else key
  }

  function RestoreRunDedupKey(repoID: string, targetAgentID: string, snapshotID: string, kind: string, target: string,
                              overwrite: bool, credentialFingerprint: string): string {
    var key := "restore\0" + repoID + "\0" + targetAgentID + "\0" + snapshotID + "\0" + kind + "\0" + target;
    (if overwrite then key + "\0" + "1" else key + "\0" + "0") + "\0" + credentialFingerprint
  }

  function Key(t: Task): string {
    match t
    case Manual(p) => ManualRunDedupKey(p)
    case System(a, r, o, p, f) => SystemRunDedupKey(a, r, o, p, f)
    case Restore(r, a, s, k, t, o, c) => RestoreRunDedupKey(r, a, s, k, t, o, c)
  }

  // ----- fields and separators -----------------------------------------------------------

  /** What the key of a task is made of. */
  function Fields(t: Task): seq<string> {
    match t
    case Manual(p) => ["plan", p]
    case System(a, r, o, p, f) => ["sys", o, a, r, p] + if f != "" then [f] else []
    case Restore(r, a, s, k, t, o, c) => ["restore", r, a, s, k, t, if o then "1" else "0", c]
  }

  predicate NulFree(fields: seq<string>) {
    forall i :: 0 <= i < |fields| ==> Nul !in fields[i]
  }

  function Join(fields: seq<string>): string
    requires fields != []
  {
    if |fields| == 1 then fields[0] else fields[0] + "\0" + Join(fields[1..])
  }

  /** strings.Split at the separator. */
  function Split(s: string): (r: seq<string>)
    ensures r != []
  {
    if s == "" then [""]
    else
      var rest := Split(s[1..]);
      if s[0] == Nul then [""] + rest else [[s[0]] + rest[0]] + rest[1..]
  }

  lemma {:induction false} SplitFirst(a: string, rest: string)
    requires Nul !in a
    ensures Split(a + "\0" + rest) == [a] + Split(rest)
  {
    if a == "" {
      assert a + "\0" + rest == "\0" + rest;
      assert ("\0" + rest)[1..] == rest;
    } else {
      SplitFirst(a[1..], rest);
      assert (a + "\0" + rest)[1..] == a[1..] + "\0" + rest;
      assert [a[0]] + a[1..] == a;
    }
  }

  lemma {:induction false} SplitOne(a: string)
    requires Nul !in a
    ensures Split(a) == [a]
  {
    if a != "" {
      SplitOne(a[1..]);
      assert [a[0]] + a[1..] == a;
    }
  }

  /** Splitting undoes joining, for fields without the separator. */
  lemma {:induction false} SplitJoin(fields: seq<string>)
    requires fields != [] && NulFree(fields)
    ensures Split(Join(fields)) == fields
  {
    if |fields| == 1 {
      SplitOne(fields[0]);
    } else {
      SplitJoin(fields[1..]);
      SplitFirst(fields[0], Join(fields[1..]));
    }
  }

  lemma {:induction false} JoinLast(fields: seq<string>, x: string)
    requires fields != []
    ensures Join(fields + [x]) == Join(fields) + "\0" + x
  {
    if |fields| > 1 {
      JoinLast(fields[1..], x);
      assert (fields + [x])[1..] == fields[1..] + [x];
    } else {
      assert (fields + [x])[1..] == [x];
    }
  }

  lemma SystemIsJoined(a: string, r: string, o: string, p: string, f: string)
    ensures SystemRunDedupKey(a, r, o, p, f) == Join(["sys", o, a, r, p] + if f != "" then [f] else [])
  {
    assert "sys\0" == "sys" + "\0";
    JoinLast(["sys"], o);
    JoinLast(["sys", o], a);
    JoinLast(["sys", o, a], r);
    JoinLast(["sys", o, a, r], p);
    JoinLast(["sys", o, a, r, p], f);
    assert ["sys"] + [o] == ["sys", o] && ["sys", o] + [a] == ["sys", o, a] && ["sys", o, a] + [r] == ["sys", o, a, r]
      && ["sys", o, a, r] + [p] == ["sys", o, a, r, p];
    assert ["sys", o, a, r, p] + [] == ["sys", o, a, r, p];
  }

  lemma RestoreIsJoined(r: string, a: string, s: string, k: string, t: string, o: bool, c: string)
    ensures RestoreRunDedupKey(r, a, s, k, t, o, c) == Join(["restore", r, a, s, k, t, if o then "1" else "0", c])
  {
    var flag := if o then "1" else "0";
    assert "restore\0" == "restore" + "\0";
    JoinLast(["restore"], r);
    JoinLast(["restore", r], a);
    JoinLast(["restore", r, a], s);
    JoinLast(["restore", r, a, s], k);
    JoinLast(["restore", r, a, s, k], t);
    JoinLast(["restore", r, a, s, k, t], flag);
    JoinLast(["restore", r, a, s, k, t, flag], c);
    assert ["restore"] + [r] == ["restore", r] && ["restore", r] + [a] == ["restore", r, a]
      && ["restore", r, a] + [s] == ["restore", r, a, s] && ["restore", r, a, s] + [k] == ["restore", r, a, s, k]
      && ["restore", r, a, s, k] + [t] == ["restore", r, a, s, k, t]
      && ["restore", r, a, s, k, t] + [flag] == ["restore", r, a, s, k, t, flag]
      && ["restore", r, a, s, k, t, flag] + [c] == ["restore", r, a, s, k, t, flag, c];
  }

  lemma KeyIsJoined(t: Task)
    ensures Key(t) == Join(Fields(t))
  {
    match t
    case Manual(p) => JoinLast(["plan"], p);
    case System(a, r, o, p, f) => SystemIsJoined(a, r, o, p, f);
    case Restore(r, a, s, k, t0, o, c) => RestoreIsJoined(r, a, s, k, t0, o, c);
  }

  lemma FieldsInjective(a: Task, b: Task)
    requires Fields(a) == Fields(b)
    ensures a == b
  {
    var f, g := Fields(a), Fields(b);
    assert f[0] == g[0] && |f| == |g|;
    match a
    case Manual(_) => assert f[1] == g[1];
    case System(_, _, _, _, _) => assert f[1] == g[1] && f[2] == g[2] && f[3] == g[3] && f[4] == g[4] && f[5..] == g[5..];
    case Restore(_, _, _, _, _, _, _) =>
      assert f[1] == g[1] && f[2] == g[2] && f[3] == g[3] && f[4] == g[4] && f[5] == g[5] && f[6] == g[6] && f[7] == g[7];
  }

  /** Over fields without NUL, keys are equal exactly for the same kind of task with equal parameters. */
  lemma KeysIdentifyTasks(a: Task, b: Task)
    requires NulFree(Fields(a)) && NulFree(Fields(b))
    ensures Key(a) == Key(b) <==> a == b
  {
    KeyIsJoined(a);
    KeyIsJoined(b);
    if Key(a) == Key(b) {
      SplitJoin(Fields(a));
      SplitJoin(Fields(b));
      FieldsInjective(a, b);
    }
  }

  /** With a NUL inside a field the keys of different tasks can coincide. */
  lemma NulConfusesKeys()
    ensures var a, b := System("x", "y\0z", "forget", "{}", ""), System("x\0y", "z", "forget", "{}", ""); a != b && Key(a) == Key(b)
  {
    var a, b := System("x", "y\0z", "forget", "{}", ""), System("x\0y", "z", "forget", "{}", "");
    assert a.agentID != b.agentID by {
      assert |a.agentID| == 1 && |b.agentID| == 3;
    }
    assert Key(a) == "sys\0forget\0x\0y\0z\0{}";
    assert Key(b) == "sys\0forget\0x\0y\0z\0{}";
  }

  // ----- reading the parameters back -----------------------------------------------------

  /** unicode.IsSpace. */
  predicate IsSpace(c: char) {
    || '\t' <= c <= '\r' || c == ' ' || c == '\U{85}' || c == '\U{a0}' || c == '\U{1680}' || '\U{2000}' <= c <= '\U{200a}'
    || c == '\U{2028}' || c == '\U{2029}' || c == '\U{202f}' || c == '\U{205f}' || c == '\U{3000}'
  }

  function TrimLeft(s: string): string {
    if s != "" && IsSpace(s[0]) then TrimLeft(s[1..]) else s
  }

  function TrimRight(s: string): string {
    if s != "" && IsSpace(s[|s| - 1]) then TrimRight(s[..|s| - 1]) else s
  }

  /** strings.HasPrefix(strings.TrimSpace(s), "{") */
  predicate LooksLikeObject(s: string) {
    "{" <= TrimRight(TrimLeft(s))
  }

  function DedupKeyParams(key: string): string {
    var parts := Split(key);
    var last := parts[|parts| - 1];
    if LooksLikeObject(last) then last else ""
  }

  predicate IsHex(s: string) {
    forall i :: 0 <= i < |s| ==> '0' <= s[i] <= '9' || 'a' <= s[i] <= 'f'
  }

  lemma {:induction false} TrimRightKeepsFirst(s: string)
    ensures TrimRight(s) != "" ==> s != "" && TrimRight(s)[0] == s[0]
    ensures s != "" && !IsSpace(s[0]) ==> TrimRight(s) != ""
  {
    if s != "" && IsSpace(s[|s| - 1]) {
      TrimRightKeepsFirst(s[..|s| - 1]);
    }
  }

  lemma HexIsNoObject(s: string)
    requires IsHex(s)
    ensures !LooksLikeObject(s)
  {
    assert TrimLeft(s) == s;
    TrimRightKeepsFirst(s);
  }

  /** The parameters come back out of a system key without a fingerprint when they are a JSON object;
      nothing comes out of one with a hexadecimal fingerprint. */
  lemma SystemParams(agentID: string, repositoryID: string, operation: string, params: string, fingerprint: string)
    requires var t := System(agentID, repositoryID, operation, params, fingerprint); NulFree(Fields(t)) && IsHex(fingerprint)
    ensures DedupKeyParams(SystemRunDedupKey(agentID, repositoryID, operation, params, fingerprint))
         == if fingerprint == "" && LooksLikeObject(params) then params else ""
  {
    var t := System(agentID, repositoryID, operation, params, fingerprint);
    KeyIsJoined(t);
    SplitJoin(Fields(t));
    HexIsNoObject(fingerprint);
  }

  /** How many snapshots a decoded forget task keeps. */
  datatype Retention = Retention(keepLast: int, keepDaily: int, keepWeekly: int, keepMonthly: int)

  predicate Keeps(r: Option<Retention>) {
    r.Some? && r.value.keepLast + r.value.keepDaily + r.value.keepWeekly + r.value.keepMonthly > 0
  }

  /** Either text shows a retention policy; `decode` stands for JSON decoding, None for its error. */
  predicate ShowsRetention(progress: string, params: string, decode: string -> Option<Retention>) {
    (progress != "" && Keeps(decode(progress))) || (params != "" && Keeps(decode(params)))
  }

  method ForgetRunIsRetention(progress: string, dedupKey: string, decode: string -> Option<Retention>) returns (r: bool)
    ensures r == ShowsRetention(progress, DedupKeyParams(dedupKey), decode)
  {
    var payloads := [progress, DedupKeyParams(dedupKey)];
    for i := 0 to |payloads|
      invariant forall k :: 0 <= k < i ==> payloads[k] == "" || !Keeps(decode(payloads[k]))
    {
      if payloads[i] == "" || decode(payloads[i]).None? {
        continue;
      }
      var t := decode(payloads[i]).value;
      if t.keepLast + t.keepDaily + t.keepWeekly + t.keepMonthly > 0 {
        return true;
      }
    }
    assert payloads[0] == progress && payloads[1] == DedupKeyParams(dedupKey);
    return false;
  }

  /** A system run created with a retention policy is recognised whatever its progress text has become,
      and one created without is recognised by its progress text only. */
  lemma RetentionIsRecognised(agentID: string, repositoryID: string, params: string, progress: string, decode: string -> Option<Retention>)
    requires NulFree([agentID, repositoryID, params]) && LooksLikeObject(params)
    ensures ShowsRetention(progress, DedupKeyParams(SystemRunDedupKey(agentID, repositoryID, "forget", params, "")), decode)
        <==> Keeps(decode(params)) || (progress != "" && Keeps(decode(progress)))
  {
    var fields := [agentID, repositoryID, params];
    assert Nul !in fields[0] && Nul !in fields[1] && Nul !in fields[2];
    SystemParams(agentID, repositoryID, "forget", params, "");
  }
}
