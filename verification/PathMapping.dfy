/** Lexical path handling of the agent: Clean, Rel and Join of the Go path packages on element
    lists, and the host/runtime path mapping built on them (internal/agent/pipeline/pipeline.go).
    A path is its leading slash and the elements between slashes. */
module PathMapping {
  import opened RestorePhases

  datatype Path = Path(rooted: bool, elems: seq<string>)

  // ----- Clean ---------------------------------------------------------------------------

  /** One element of the left-to-right scan of Clean. */
  function Push(rooted: bool, done: seq<string>, e: string): seq<string> {
    if e == "" || e == "." then done
    else if e == ".." then
      if done != [] && done[|done| - 1] != ".." then done[..|done| - 1]
      else if rooted then done
      else done + [e]
    else done + [e]
  }

  function Scan(rooted: bool, done: seq<string>, rest: seq<string>): seq<string>
    decreases |rest|
  {
    if rest == [] then done else Scan(rooted, Push(rooted, done, rest[0]), rest[1..])
  }

  function Clean(p: Path): Path {
    Path(p.rooted, Scan(p.rooted, [], p.elems))
  }

  predicate Name(e: string) {
    e != "" && e != "." && e != ".."
  }

  ghost predicate Names(es: seq<string>) {
    forall i :: 0 <= i < |es| ==> Name(es[i])
  }

  /** The normal form Clean produces: leading ".." only when not rooted, names after that. */
  ghost predicate Normal(p: Path) {
    exists n :: NormalFrom(p, n)
  }

  ghost predicate NormalFrom(p: Path, n: nat) {
    && n <= |p.elems|
    && (p.rooted ==> n == 0)
    && (forall i :: 0 <= i < n ==> p.elems[i] == "..")
    && Names(p.elems[n..])
  }

  lemma {:induction false} ScanNormal(rooted: bool, done: seq<string>, rest: seq<string>, n: nat) returns (m: nat)
    requires NormalFrom(Path(rooted, done), n)
    ensures NormalFrom(Path(rooted, Scan(rooted, done, rest)), m)
    decreases |rest|
  {
    if rest == [] {
      m := n;
    } else {
      var next := Push(rooted, done, rest[0]);
      var k := n;
      if rest[0] == ".." {
        if done != [] && done[|done| - 1] != ".." {
          assert n < |done|;
          assert done[|done| - 1] == done[n..][|done| - 1 - n];
          assert next[n..] == done[n..][..|done| - 1 - n];
        } else if !rooted {
          assert n == |done|;
          k := n + 1;
          assert next[k..] == [];
        }
      } else if rest[0] != "" && rest[0] != "." {
        assert next[n..] == done[n..] + [rest[0]];
      }
      m := ScanNormal(rooted, next, rest[1..], k);
    }
  }

  /** Clean always lands in normal form. */
  lemma CleanNormal(p: Path)
    ensures Normal(Clean(p))
  {
    assert NormalFrom(Path(p.rooted, []), 0);
    var m := ScanNormal(p.rooted, [], p.elems, 0);
  }

  lemma {:induction false} ScanKeepsNames(rooted: bool, done: seq<string>, rest: seq<string>)
    requires Names(rest)
    ensures Scan(rooted, done, rest) == done + rest
    decreases |rest|
  {
    if rest == [] {
      assert done + rest == done;
    } else {
      assert Name(rest[0]);
      ScanKeepsNames(rooted, done + [rest[0]], rest[1..]);
      assert done + [rest[0]] + rest[1..] == done + rest;
    }
  }

  lemma {:induction false} ScanKeepsUps(done: seq<string>, rest: seq<string>, n: nat)
    requires forall i :: 0 <= i < |done| ==> done[i] == ".."
    requires NormalFrom(Path(false, rest), n)
    ensures Scan(false, done, rest) == done + rest
    decreases n
  {
    if n == 0 {
      assert rest[0..] == rest;
      ScanKeepsNames(false, done, rest);
    } else {
      assert rest[0] == "..";
      assert NormalFrom(Path(false, rest[1..]), n - 1) by {
        assert rest[1..][n - 1..] == rest[n..];
        forall i | 0 <= i < n - 1 ensures rest[1..][i] == ".." { assert rest[1..][i] == rest[i + 1]; }
      }
      assert Push(false, done, rest[0]) == done + [rest[0]];
      ScanKeepsUps(done + [rest[0]], rest[1..], n - 1);
      assert done + [rest[0]] + rest[1..] == done + rest;
    }
  }

  /** A path in normal form is its own Clean; so Clean is idempotent. */
  lemma CleanFixesNormal(p: Path)
    requires Normal(p)
    ensures Clean(p) == p
  {
    var n: nat :| NormalFrom(p, n);
    if p.rooted {
      assert p.elems[0..] == p.elems;
      ScanKeepsNames(true, [], p.elems);
    } else {
      ScanKeepsUps([], p.elems, n);
    }
    assert [] + p.elems == p.elems;
  }

  lemma CleanIdempotent(p: Path)
    ensures Clean(Clean(p)) == Clean(p)
  {
    CleanNormal(p);
    CleanFixesNormal(Clean(p));
  }

  // ----- Rel and Join --------------------------------------------------------------------

  predicate IsPrefix(a: seq<string>, b: seq<string>) {
    |a| <= |b| && a == b[..|a|]
  }

  /** filepath.Rel(base, targ) succeeds with a result that does not climb out of base. */
  predicate Covers(base: Path, targ: Path) {
    && base.rooted == targ.rooted
    && IsPrefix(base.elems, targ.elems)
    && (|base.elems| < |targ.elems| ==> targ.elems[|base.elems|] != "..")
  }

  function Rel(base: Path, targ: Path): seq<string>
    requires Covers(base, targ)
  {
    targ.elems[|base.elems|..]
  }

  /** filepath.Join(root, rel), which cleans its result. */
  function Join(root: Path, rel: seq<string>): Path {
    Clean(Path(root.rooted, root.elems + rel))
  }

  lemma {:induction false} ScanAppend(rooted: bool, done: seq<string>, a: seq<string>, b: seq<string>)
    ensures Scan(rooted, done, a + b) == Scan(rooted, Scan(rooted, done, a), b)
    decreases |a|
  {
    if a == [] {
      assert a + b == b;
    } else {
      assert (a + b)[1..] == a[1..] + b;
      ScanAppend(rooted, Push(rooted, done, a[0]), a[1..], b);
    }
  }

  /** Joining names below a root yields exactly the cleaned root followed by those names. */
  lemma JoinNames(root: Path, rel: seq<string>)
    requires Names(rel)
    ensures Join(root, rel) == Path(root.rooted, Clean(root).elems + rel)
  {
    ScanAppend(root.rooted, [], root.elems, rel);
    ScanKeepsNames(root.rooted, Clean(root).elems, rel);
  }

  /** The remainder of a normal path below a root that covers it consists of names. */
  lemma RelNames(base: Path, targ: Path)
    requires Normal(targ) && Covers(base, targ)
    ensures Names(Rel(base, targ))
  {
    var n: nat :| NormalFrom(targ, n);
    var k := |base.elems|;
    if k < |targ.elems| {
      assert n <= k;
      forall i | 0 <= i < |targ.elems| - k
        ensures Name(targ.elems[k..][i])
      {
        assert targ.elems[k..][i] == targ.elems[n..][k - n + i];
      }
    }
  }

  // ----- mapPath -------------------------------------------------------------------------

  datatype Mapping = Mapping(host: Path, runtime: Path)

  function From(m: Mapping, reverse: bool): Path {
    if reverse then m.runtime else m.host
  }

  function To(m: Mapping, reverse: bool): Path {
    if reverse then m.host else m.runtime
  }

  /** Length of the text of a clean path; "." and "/" have length one. */
  function TextLength(p: Path): nat {
    if p.elems == [] then 1
    else if p.rooted then ElemsLength(p.elems)
    else ElemsLength(p.elems) - 1
  }

  function ElemsLength(es: seq<string>): (n: nat)
    ensures es != [] ==> n >= 1
  {
    if es == [] then 0 else ElemsLength(es[..|es| - 1]) + 1 + |es[|es| - 1]|
  }

  predicate CoversVia(ms: seq<Mapping>, i: int, clean: Path, reverse: bool) {
    0 <= i < |ms| && Covers(Clean(From(ms[i], reverse)), clean)
  }

  /** The loop of mapPath after n mappings: index of the covering mapping with the textually longest
      root, the first one on a tie, or -1. */
  function Select(ms: seq<Mapping>, n: nat, clean: Path, reverse: bool): (best: int)
    requires n <= |ms|
    ensures -1 <= best < n
    ensures best >= 0 ==> CoversVia(ms, best, clean, reverse)
  {
    if n == 0 then -1
    else
      var b := Select(ms, n - 1, clean, reverse);
      if CoversVia(ms, n - 1, clean, reverse) && (b < 0 || RootLength(ms[n - 1], reverse) > RootLength(ms[b], reverse))
      then n - 1 else b
  }

  function RootLength(m: Mapping, reverse: bool): nat {
    TextLength(Clean(From(m, reverse)))
  }

  function Image(m: Mapping, clean: Path, reverse: bool): Path
    requires Covers(Clean(From(m, reverse)), clean)
  {
    Join(To(m, reverse), Rel(Clean(From(m, reverse)), clean))
  }

  function MapTo(path: Path, ms: seq<Mapping>, reverse: bool): Option<Path> {
    if ms == [] then Some(path)
    else
      var best := Select(ms, |ms|, Clean(path), reverse);
      if best >= 0 then Some(Image(ms[best], Clean(path), reverse))
      else if reverse then Some(path)
      else None
  }

  /** mapPath. None is the error of a path no mapping covers; the final check that the result does
      not escape the target root never fires. */
  method MapPath(path: Path, ms: seq<Mapping>, reverse: bool) returns (r: Option<Path>)
    ensures r == MapTo(path, ms, reverse)
  {
    if |ms| == 0 {
      return Some(path);
    }
    var clean := Clean(path);
    var best := -1;
    var bestRoot := Path(false, []);
    var i := 0;
    while i < |ms|
      invariant 0 <= i <= |ms|
      invariant best == Select(ms, i, clean, reverse)
      invariant best >= 0 ==> bestRoot == Clean(From(ms[best], reverse))
    {
      var root := Clean(From(ms[i], reverse));
      if Covers(root, clean) && (best < 0 || TextLength(root) > TextLength(bestRoot)) {
        best, bestRoot := i, root;
      }
      i := i + 1;
    }
    if best < 0 {
      return if reverse then Some(path) else None;
    }
    var target := Join(To(ms[best], reverse), Rel(bestRoot, clean));
    CleanNormal(path);
    ImageInside(ms[best], clean, reverse);
    if !Covers(Clean(To(ms[best], reverse)), target) {
      return None;
    }
    return Some(target);
  }

  /** The image lies inside the cleaned target root and keeps the remainder unchanged. */
  lemma ImageInside(m: Mapping, clean: Path, reverse: bool)
    requires Normal(clean) && Covers(Clean(From(m, reverse)), clean)
    ensures var root := Clean(To(m, reverse));
            Image(m, clean, reverse) == Path(root.rooted, root.elems + Rel(Clean(From(m, reverse)), clean))
    ensures Covers(Clean(To(m, reverse)), Image(m, clean, reverse))
  {
    var rel := Rel(Clean(From(m, reverse)), clean);
    RelNames(Clean(From(m, reverse)), clean);
    JoinNames(To(m, reverse), rel);
    assert rel != [] ==> Name(rel[0]);
  }

  // ----- the most specific root ----------------------------------------------------------

  /** Root b is at least as long as the root of every covering mapping below n. */
  ghost predicate LongestOf(ms: seq<Mapping>, n: nat, b: int, clean: Path, reverse: bool)
    requires n <= |ms| && 0 <= b < |ms|
  {
    forall k :: 0 <= k < n && CoversVia(ms, k, clean, reverse) ==> Dominates(ms, b, k, reverse)
  }

  predicate Dominates(ms: seq<Mapping>, b: int, k: int, reverse: bool)
    requires 0 <= b < |ms| && 0 <= k < |ms|
  {
    && RootLength(ms[k], reverse) <= RootLength(ms[b], reverse)
    && (k < b ==> RootLength(ms[k], reverse) < RootLength(ms[b], reverse))
  }

  /** Select finds -1 exactly when nothing covers; otherwise no covering root is textually longer,
      and none listed earlier is as long. */
  lemma {:induction false} SelectLongest(ms: seq<Mapping>, n: nat, clean: Path, reverse: bool)
    requires n <= |ms|
    ensures var b := Select(ms, n, clean, reverse);
            if b < 0 then forall k :: 0 <= k < n ==> !CoversVia(ms, k, clean, reverse)
            else LongestOf(ms, n, b, clean, reverse)
  {
    if n > 0 {
      SelectLongest(ms, n - 1, clean, reverse);
      var p, b := Select(ms, n - 1, clean, reverse), Select(ms, n, clean, reverse);
      if b >= 0 {
        forall k | 0 <= k < n && CoversVia(ms, k, clean, reverse)
          ensures Dominates(ms, b, k, reverse)
        {
          if k < n - 1 {
            assert p >= 0 && Dominates(ms, p, k, reverse);
          }
        }
      }
    }
  }

  ghost predicate NonEmptyNames(es: seq<string>) {
    forall i :: 0 <= i < |es| ==> es[i] != ""
  }

  lemma NormalNonEmpty(p: Path)
    requires Normal(p)
    ensures NonEmptyNames(p.elems)
  {
    var n: nat :| NormalFrom(p, n);
    forall i | 0 <= i < |p.elems|
      ensures p.elems[i] != ""
    {
      if i >= n { assert p.elems[i] == p.elems[n..][i - n]; }
    }
  }

  lemma {:induction false} PrefixLength(a: seq<string>, b: seq<string>)
    requires IsPrefix(a, b) && NonEmptyNames(b)
    ensures ElemsLength(b) >= ElemsLength(a) + 2 * (|b| - |a|)
    ensures |b| == |a| + 1 ==> ElemsLength(b) == ElemsLength(a) + 1 + |b[|b| - 1]|
    decreases |b|
  {
    if |a| < |b| {
      assert b[..|b| - 1][..|a|] == a;
      PrefixLength(a, b[..|b| - 1]);
      assert |a| + 1 == |b| ==> b[..|b| - 1] == a;
    } else {
      assert a == b;
    }
  }

  /** Comparing texts picks the deeper of two nested roots, except that the relative root "." ties
      with a root of a single one-character name. */
  lemma LongerIsDeeper(a: Path, b: Path)
    requires Normal(a) && Normal(b) && a.rooted == b.rooted
    requires IsPrefix(a.elems, b.elems) && |a.elems| < |b.elems|
    ensures TextLength(a) >= TextLength(b) <==> !a.rooted && a.elems == [] && |b.elems| == 1 && |b.elems[0]| == 1
  {
    NormalNonEmpty(b);
    PrefixLength(a.elems, b.elems);
  }

  /** The chosen root is "." and the other has a single one-character name: their texts tie. */
  predicate DotTie(chosen: Path, other: Path) {
    !chosen.rooted && chosen.elems == [] && |other.elems| == 1 && |other.elems[0]| == 1
  }

  /** The chosen root is the most specific one: every root covering the path is a prefix of it, except
      exactly those that tie with a chosen "." listed before them. */
  lemma MostSpecificRoot(path: Path, ms: seq<Mapping>, reverse: bool, k: int)
    requires CoversVia(ms, k, Clean(path), reverse)
    ensures var b := Select(ms, |ms|, Clean(path), reverse);
            && b >= 0
            && var chosen, other := Clean(From(ms[b], reverse)), Clean(From(ms[k], reverse));
               && (IsPrefix(other.elems, chosen.elems) <==> !DotTie(chosen, other))
               && (DotTie(chosen, other) ==> b < k)
  {
    var clean := Clean(path);
    SelectLongest(ms, |ms|, clean, reverse);
    var b := Select(ms, |ms|, clean, reverse);
    var rk, rb := Clean(From(ms[k], reverse)), Clean(From(ms[b], reverse));
    assert Dominates(ms, b, k, reverse);
    CleanNormal(From(ms[k], reverse));
    CleanNormal(From(ms[b], reverse));
    if |rb.elems| < |rk.elems| {
      assert rb.elems == rk.elems[..|rb.elems|];
      LongerIsDeeper(rb, rk);
    } else {
      assert rk.elems == rb.elems[..|rk.elems|];
    }
  }

  /** With "." listed first, the path a/f is mapped from "." although the root a covers it too. */
  lemma DotBeatsOneCharacter()
    ensures var ms := [Mapping(Path(false, ["."]), Path(true, ["m"])), Mapping(Path(false, ["a"]), Path(true, ["n"]))];
            CoversVia(ms, 1, Clean(Path(false, ["a", "f"])), false) &&
            MapTo(Path(false, ["a", "f"]), ms, false) == Some(Path(true, ["m", "a", "f"]))
  {
    var m0, m1 := Mapping(Path(false, ["."]), Path(true, ["m"])), Mapping(Path(false, ["a"]), Path(true, ["n"]));
    DotRoots(m0.host, m1.host);
    DotImage(m0);
    FirstOfTwo(m0, m1, Path(false, ["a", "f"]), false);
  }

  lemma DotRoots(dot: Path, a: Path)
    requires dot == Path(false, ["."]) && a == Path(false, ["a"])
    ensures Clean(dot) == Path(false, []) && Clean(a) == a && Clean(Path(false, ["a", "f"])) == Path(false, ["a", "f"])
    ensures TextLength(Path(false, [])) == TextLength(a) == 1
  {
    ScanKeepsNames(false, [], ["a", "f"]);
    ScanKeepsNames(false, [], ["a"]);
    assert Push(false, [], ".") == [] && dot.elems[1..] == [];
    assert a.elems[..0] == [];
    assert ElemsLength([]) == 0;
  }

  lemma DotImage(m: Mapping)
    requires m.runtime == Path(true, ["m"]) && Clean(m.host) == Path(false, [])
    ensures Covers(Path(false, []), Path(false, ["a", "f"]))
    ensures Image(m, Path(false, ["a", "f"]), false) == Path(true, ["m", "a", "f"])
  {
    var path := Path(false, ["a", "f"]);
    assert Rel(Path(false, []), path) == ["a", "f"];
    assert ["m"] + ["a", "f"] == ["m", "a", "f"];
    ScanKeepsNames(true, [], ["m", "a", "f"]);
  }

  /** Of two mappings the first is taken when its root covers the path and the other's is no longer. */
  lemma FirstOfTwo(m0: Mapping, m1: Mapping, path: Path, reverse: bool)
    requires Clean(path) == path && Covers(Clean(From(m0, reverse)), path)
    requires Covers(Clean(From(m1, reverse)), path) ==> RootLength(m1, reverse) <= RootLength(m0, reverse)
    ensures MapTo(path, [m0, m1], reverse) == Some(Image(m0, path, reverse))
  {
    assert CoversVia([m0, m1], 0, path, reverse);
    assert Select([m0, m1], 0, path, reverse) == -1;
    assert Select([m0, m1], 1, path, reverse) == 0;
  }

  lemma SecondOfTwo(m0: Mapping, m1: Mapping, path: Path, reverse: bool)
    requires Clean(path) == path && Covers(Clean(From(m1, reverse)), path)
    requires Covers(Clean(From(m0, reverse)), path) ==> RootLength(m0, reverse) < RootLength(m1, reverse)
    ensures MapTo(path, [m0, m1], reverse) == Some(Image(m1, path, reverse))
  {
    assert CoversVia([m0, m1], 1, path, reverse);
    assert Select([m0, m1], 1, path, reverse) <= 0;
  }

  /** A mapped path is always the selected runtime root followed by the part below the host root. */
  lemma MappedInsideRoot(path: Path, ms: seq<Mapping>, reverse: bool)
    requires ms != [] && MapTo(path, ms, reverse).Some?
    ensures var b := Select(ms, |ms|, Clean(path), reverse);
            if b < 0 then reverse && MapTo(path, ms, reverse) == Some(path)
            else var root := Clean(To(ms[b], reverse));
                 var image := MapTo(path, ms, reverse).value;
                 Covers(root, image) && Rel(root, image) == Rel(Clean(From(ms[b], reverse)), Clean(path))
  {
    var b := Select(ms, |ms|, Clean(path), reverse);
    if b >= 0 {
      CleanNormal(path);
      ImageInside(ms[b], Clean(path), reverse);
    }
  }

  // ----- reverse undoes forward ----------------------------------------------------------

  predicate Inside(inner: Path, outer: Path) {
    inner.rooted == outer.rooted && IsPrefix(outer.elems, inner.elems)
  }

  predicate RuntimeRootsApart(ms: seq<Mapping>) {
    forall i, j :: 0 <= i < |ms| && 0 <= j < |ms| && i != j ==> !Inside(Clean(ms[i].runtime), Clean(ms[j].runtime))
  }

  lemma ReverseUndoesForward(path: Path, ms: seq<Mapping>)
    requires ms != [] && RuntimeRootsApart(ms)
    requires MapTo(path, ms, false).Some?
    ensures MapTo(MapTo(path, ms, false).value, ms, true) == Some(Clean(path))
  {
    var clean := Clean(path);
    var b := Select(ms, |ms|, clean, false);
    var rt, host := Clean(ms[b].runtime), Clean(ms[b].host);
    var q := Image(ms[b], clean, false);
    CleanNormal(path);
    ImageInside(ms[b], clean, false);
    CleanIdempotent(Path(ms[b].runtime.rooted, ms[b].runtime.elems + Rel(host, clean)));
    assert Clean(q) == q;
    forall k | CoversVia(ms, k, q, true)
      ensures k == b
    {
      var rk := Clean(ms[k].runtime);
      if k != b {
        if |rk.elems| <= |rt.elems| {
          assert rk.elems == q.elems[..|rk.elems|] == rt.elems[..|rk.elems|];
          assert Inside(rt, rk);
        } else {
          assert rt.elems == q.elems[..|rt.elems|] == rk.elems[..|rt.elems|];
          assert Inside(rk, rt);
        }
      }
    }
    assert CoversVia(ms, b, q, true);
    SelectLongest(ms, |ms|, q, true);
    assert Select(ms, |ms|, q, true) == b;
    CleanNormal(Path(ms[b].runtime.rooted, ms[b].runtime.elems + Rel(host, clean)));
    ImageInside(ms[b], q, true);
    assert Rel(rt, q) == Rel(host, clean);
    assert host.elems + Rel(host, clean) == clean.elems;
  }

  /** With one runtime root inside another, reverse can land on the wrong host. */
  /** What parsePathMappings lets through (internal/agent/config/config.go). */
  predicate AbsoluteRoots(ms: seq<Mapping>) {
    forall k :: 0 <= k < |ms| ==> ms[k].host.rooted && ms[k].runtime.rooted
  }

  predicate SameRoots(a: Mapping, b: Mapping) {
    Clean(a.host) == Clean(b.host) && Clean(a.runtime) == Clean(b.runtime)
  }

  predicate RoundTrips(path: Path, ms: seq<Mapping>)
    requires MapTo(path, ms, false).Some?
  {
    MapTo(MapTo(path, ms, false).value, ms, true) == Some(Clean(path))
  }

  /** The mapping chosen for the image of a path, on the way back. */
  function Back(path: Path, ms: seq<Mapping>): int
    requires MapTo(path, ms, false).Some?
  {
    Select(ms, |ms|, MapTo(path, ms, false).value, true)
  }

  lemma ImageClean(m: Mapping, clean: Path, reverse: bool)
    requires Covers(Clean(From(m, reverse)), clean)
    ensures Normal(Image(m, clean, reverse)) && Clean(Image(m, clean, reverse)) == Image(m, clean, reverse)
  {
    var joined := Path(To(m, reverse).rooted, To(m, reverse).elems + Rel(Clean(From(m, reverse)), clean));
    CleanNormal(joined);
    CleanIdempotent(joined);
  }

  lemma CoveredSplit(root: Path, path: Path)
    requires Covers(root, path)
    ensures path.elems == root.elems + Rel(root, path)
  {
  }

  /** What mapping forth does between absolute roots, element by element. */
  lemma There(path: Path, ms: seq<Mapping>)
    requires ms != [] && AbsoluteRoots(ms) && MapTo(path, ms, false).Some?
    ensures var b := Select(ms, |ms|, Clean(path), false);
      var q := MapTo(path, ms, false).value;
      && b >= 0 && q.rooted && Clean(path).rooted && Normal(q) && Clean(q) == q && CoversVia(ms, b, q, true)
      && Clean(path).elems == Clean(ms[b].host).elems + Rel(Clean(ms[b].runtime), q)
  {
    var clean := Clean(path);
    var b := Select(ms, |ms|, clean, false);
    CleanNormal(path);
    ImageInside(ms[b], clean, false);
    ImageClean(ms[b], clean, false);
    CoveredSplit(Clean(ms[b].host), clean);
  }

  /** Forth and back. */
  lemma ThereAndBack(path: Path, ms: seq<Mapping>)
    requires ms != [] && AbsoluteRoots(ms) && MapTo(path, ms, false).Some?
    ensures var b, r := Select(ms, |ms|, Clean(path), false), Back(path, ms);
      var q := MapTo(path, ms, false).value;
      && b >= 0 && r >= 0 && q.rooted && Clean(path).rooted && CoversVia(ms, b, q, true)
      && Clean(path).elems == Clean(ms[b].host).elems + Rel(Clean(ms[b].runtime), q)
      && MapTo(q, ms, true) == Some(Path(true, Clean(ms[r].host).elems + Rel(Clean(ms[r].runtime), q)))
  {
    There(path, ms);
    var q := MapTo(path, ms, false).value;
    SelectLongest(ms, |ms|, q, true);
    ImageInside(ms[Select(ms, |ms|, q, true)], q, true);
  }

  /** A root that covers the path below the chosen absolute one does not exist. */
  lemma NoneDeeper(ms: seq<Mapping>, clean: Path, reverse: bool, k: int)
    requires AbsoluteRoots(ms) && CoversVia(ms, k, clean, reverse)
    ensures var b := Select(ms, |ms|, clean, reverse);
      b >= 0 && |Clean(From(ms[k], reverse)).elems| <= |Clean(From(ms[b], reverse)).elems|
  {
    SelectLongest(ms, |ms|, clean, reverse);
    var b := Select(ms, |ms|, clean, reverse);
    var rk, rb := Clean(From(ms[k], reverse)), Clean(From(ms[b], reverse));
    assert Dominates(ms, b, k, reverse);
    if |rb.elems| < |rk.elems| {
      assert rb.elems == rk.elems[..|rb.elems|];
      CleanNormal(From(ms[k], reverse));
      CleanNormal(From(ms[b], reverse));
      LongerIsDeeper(rb, rk);
    }
  }

  /** Two ways to write c with suffixes of q. */
  lemma SameSuffix(c: seq<string>, q: seq<string>, hb: seq<string>, hr: seq<string>, m: nat, n: nat)
    requires m <= n <= |q| && c == hb + q[m..] == hr + q[n..]
    ensures hr == hb + q[m..n] && IsPrefix(hr, c)
  {
    assert q[m..] == q[m..n] + q[n..];
    assert c == (hb + q[m..n]) + q[n..];
    assert |hr| == |hb + q[m..n]|;
    assert hr == c[..|hr|];
    assert hb + q[m..n] == c[..|hr|];
  }

  lemma SameWayBack(path: Path, ms: seq<Mapping>)
    requires ms != [] && AbsoluteRoots(ms) && MapTo(path, ms, false).Some? && RoundTrips(path, ms)
    ensures var b, r := Select(ms, |ms|, Clean(path), false), Back(path, ms); b >= 0 && r >= 0 && SameRoots(ms[b], ms[r])
  {
    ThereAndBack(path, ms);
    var b, r := Select(ms, |ms|, Clean(path), false), Back(path, ms);
    var clean, q := Clean(path), MapTo(path, ms, false).value;
    var rb, rr := Clean(ms[b].runtime).elems, Clean(ms[r].runtime).elems;
    var hb, hr := Clean(ms[b].host).elems, Clean(ms[r].host).elems;
    NoneDeeper(ms, q, true, b);
    SameSuffix(clean.elems, q.elems, hb, hr, |rb|, |rr|);
    assert CoversVia(ms, r, clean, false) by {
      CleanNormal(path);
      RootedNames(clean);
    }
    NoneDeeper(ms, clean, false, r);
    assert |rb| == |rr|;
    assert q.elems[|rb|..|rr|] == [];
    assert rb == q.elems[..|rb|] == rr;
  }

  /** For absolute roots, a path comes back exactly when the way back goes through a mapping with the same
      two roots. */
  lemma RoundTripExact(path: Path, ms: seq<Mapping>)
    requires ms != [] && AbsoluteRoots(ms) && MapTo(path, ms, false).Some?
    ensures RoundTrips(path, ms) <==>
      var b, r := Select(ms, |ms|, Clean(path), false), Back(path, ms); b >= 0 && r >= 0 && SameRoots(ms[b], ms[r])
  {
    ThereAndBack(path, ms);
    if RoundTrips(path, ms) {
      SameWayBack(path, ms);
    }
  }

  lemma RootedNames(p: Path)
    requires Normal(p) && p.rooted
    ensures Names(p.elems)
  {
    assert p.elems[0..] == p.elems;
  }

  /** Runtime root j lies inside runtime root i. The place below host root i whose image is runtime root j
      goes through mapping i on the way there and through j, another one, on the way back. */
  predicate Shadows(ms: seq<Mapping>, i: nat, j: nat)
    requires i < |ms| && j < |ms|
  {
    && Inside(Clean(ms[j].runtime), Clean(ms[i].runtime)) && !SameRoots(ms[i], ms[j])
    && Select(ms, |ms|, Corner(ms, i, j), false) == i
    && Select(ms, |ms|, Clean(ms[j].runtime), true) == j
  }

  function Corner(ms: seq<Mapping>, i: nat, j: nat): Path
    requires i < |ms| && j < |ms| && Inside(Clean(ms[j].runtime), Clean(ms[i].runtime))
  {
    Path(true, Clean(ms[i].host).elems + Clean(ms[j].runtime).elems[|Clean(ms[i].runtime).elems|..])
  }

  /** A mapping chosen for a place is chosen for every place above it that its root covers. */
  lemma ChosenAbove(ms: seq<Mapping>, n: nat, clean: Path, above: Path, reverse: bool)
    requires n <= |ms| && Select(ms, n, clean, reverse) >= 0
    requires Normal(clean) && Normal(above) && clean.rooted && above.rooted && IsPrefix(above.elems, clean.elems)
    requires var root := Clean(From(ms[Select(ms, n, clean, reverse)], reverse)); root.rooted && IsPrefix(root.elems, above.elems)
    ensures Select(ms, n, above, reverse) == Select(ms, n, clean, reverse)
  {
    RootedNames(clean);
    RootedNames(above);
    var b := Select(ms, n, clean, reverse);
    SelectLongest(ms, n, clean, reverse);
    SelectLongest(ms, n, above, reverse);
    var a := Select(ms, n, above, reverse);
    assert CoversVia(ms, b, above, reverse);
    var ra := Clean(From(ms[a], reverse));
    assert ra.elems == above.elems[..|ra.elems|] == clean.elems[..|ra.elems|];
    assert CoversVia(ms, a, clean, reverse);
    assert Dominates(ms, a, b, reverse) && Dominates(ms, b, a, reverse);
  }

  lemma CornerImage(ms: seq<Mapping>, i: nat, j: nat)
    requires AbsoluteRoots(ms) && i < |ms| && j < |ms| && Inside(Clean(ms[j].runtime), Clean(ms[i].runtime))
    ensures var c := Corner(ms, i, j);
      Clean(c) == c && Normal(c) && CoversVia(ms, i, c, false) && Image(ms[i], c, false) == Clean(ms[j].runtime)
  {
    var c, host, rt, inner := Corner(ms, i, j), Clean(ms[i].host), Clean(ms[i].runtime), Clean(ms[j].runtime);
    CleanNormal(ms[i].host);
    CleanNormal(ms[j].runtime);
    RootedNames(host);
    RootedNames(inner);
    ScanKeepsNames(true, [], c.elems);
    assert c.elems[0..] == c.elems && NormalFrom(c, 0);
    assert host.elems == c.elems[..|host.elems|];
    assert Rel(host, c) == inner.elems[|rt.elems|..];
    ImageInside(ms[i], c, false);
    assert inner.elems == rt.elems + inner.elems[|rt.elems|..];
  }

  lemma ShadowBreaks(ms: seq<Mapping>, i: nat, j: nat)
    requires AbsoluteRoots(ms) && i < |ms| && j < |ms| && Shadows(ms, i, j)
    ensures MapTo(Corner(ms, i, j), ms, false).Some? && !RoundTrips(Corner(ms, i, j), ms)
  {
    CornerImage(ms, i, j);
    RoundTripExact(Corner(ms, i, j), ms);
  }

  lemma BreakShadows(path: Path, ms: seq<Mapping>) returns (i: nat, j: nat)
    requires ms != [] && AbsoluteRoots(ms) && MapTo(path, ms, false).Some? && !RoundTrips(path, ms)
    ensures i < |ms| && j < |ms| && Shadows(ms, i, j)
  {
    ThereAndBack(path, ms);
    RoundTripExact(path, ms);
    There(path, ms);
    i, j := Select(ms, |ms|, Clean(path), false), Back(path, ms);
    var q := MapTo(path, ms, false).value;
    var outer, inner := Clean(ms[i].runtime), Clean(ms[j].runtime);
    NoneDeeper(ms, q, true, i);
    assert outer.elems == q.elems[..|outer.elems|] == inner.elems[..|outer.elems|];
    CleanNormal(ms[j].runtime);
    ChosenAbove(ms, |ms|, q, inner, true);
    CornerChosen(path, ms, j);
  }

  lemma CornerChosen(path: Path, ms: seq<Mapping>, j: nat)
    requires ms != [] && AbsoluteRoots(ms) && MapTo(path, ms, false).Some? && j < |ms|
    requires var i := Select(ms, |ms|, Clean(path), false); i >= 0 && Inside(Clean(ms[j].runtime), Clean(ms[i].runtime))
    requires IsPrefix(Clean(ms[j].runtime).elems, MapTo(path, ms, false).value.elems)
    ensures var i := Select(ms, |ms|, Clean(path), false); Select(ms, |ms|, Corner(ms, i, j), false) == i
  {
    var i := Select(ms, |ms|, Clean(path), false);
    var c, clean, inner := Corner(ms, i, j), Clean(path), Clean(ms[j].runtime);
    There(path, ms);
    CornerImage(ms, i, j);
    CleanNormal(path);
    PrefixOfSuffix(clean.elems, MapTo(path, ms, false).value.elems, Clean(ms[i].host).elems, inner.elems, |Clean(ms[i].runtime).elems|);
    ChosenAbove(ms, |ms|, clean, c, false);
  }

  lemma PrefixOfSuffix(c: seq<string>, q: seq<string>, h: seq<string>, inner: seq<string>, m: nat)
    requires m <= |inner| && IsPrefix(inner, q) && c == h + q[m..]
    ensures IsPrefix(h + inner[m..], c)
  {
    assert q[m..] == inner[m..] + q[|inner|..];
    assert c == (h + inner[m..]) + q[|inner|..];
  }

  /** For absolute roots, every path comes back if and only if no mapping shadows another. */
  lemma ReverseExact(ms: seq<Mapping>)
    requires ms != [] && AbsoluteRoots(ms)
    ensures (forall path :: MapTo(path, ms, false).Some? ==> RoundTrips(path, ms)) <==>
      (forall i, j :: 0 <= i < |ms| && 0 <= j < |ms| ==> !Shadows(ms, i, j))
  {
    if i, j :| 0 <= i < |ms| && 0 <= j < |ms| && Shadows(ms, i, j) {
      ShadowBreaks(ms, i, j);
    }
    if path :| MapTo(path, ms, false).Some? && !RoundTrips(path, ms) {
      var i, j := BreakShadows(path, ms);
    }
  }

  lemma NestedRuntimeRootsBreakReverse()
    ensures var ms := [Mapping(Path(true, ["a"]), Path(true, ["m"])),
                       Mapping(Path(true, ["b"]), Path(true, ["m", "x"]))];
            MapTo(Path(true, ["a", "x", "f"]), ms, false) == Some(Path(true, ["m", "x", "f"])) &&
            MapTo(Path(true, ["m", "x", "f"]), ms, true) == Some(Path(true, ["b", "f"]))
  {
    var m0 := Mapping(Path(true, ["a"]), Path(true, ["m"]));
    var m1 := Mapping(Path(true, ["b"]), Path(true, ["m", "x"]));
    AlreadyClean(["a"]);
    AlreadyClean(["b"]);
    AlreadyClean(["m"]);
    AlreadyClean(["m", "x"]);
    NestedForward(m0, m1);
    NestedBackward(m0, m1);
  }

  lemma NestedForward(m0: Mapping, m1: Mapping)
    requires m0 == Mapping(Path(true, ["a"]), Path(true, ["m"])) && Clean(m0.host) == m0.host
    requires m1.host == Path(true, ["b"]) && Clean(m1.host) == m1.host
    ensures MapTo(Path(true, ["a", "x", "f"]), [m0, m1], false) == Some(Path(true, ["m", "x", "f"]))
  {
    var path := Path(true, ["a", "x", "f"]);
    AlreadyClean(path.elems);
    AlreadyClean(["m", "x", "f"]);
    FirstOfTwo(m0, m1, path, false);
    ImageOf(m0, path, false, ["m", "x", "f"]);
  }

  lemma NestedBackward(m0: Mapping, m1: Mapping)
    requires m0.runtime == Path(true, ["m"]) && Clean(m0.runtime) == m0.runtime
    requires m1 == Mapping(Path(true, ["b"]), Path(true, ["m", "x"])) && Clean(m1.runtime) == m1.runtime
    ensures MapTo(Path(true, ["m", "x", "f"]), [m0, m1], true) == Some(Path(true, ["b", "f"]))
  {
    var q := Path(true, ["m", "x", "f"]);
    AlreadyClean(q.elems);
    AlreadyClean(["b", "f"]);
    TwoBeatsOne();
    SecondOfTwo(m0, m1, q, true);
    ImageOf(m1, q, true, ["b", "f"]);
  }

  lemma ImageOf(m: Mapping, clean: Path, reverse: bool, es: seq<string>)
    requires Covers(Clean(From(m, reverse)), clean)
    requires To(m, reverse).elems + clean.elems[|Clean(From(m, reverse)).elems|..] == es
    requires Clean(Path(true, es)) == Path(true, es) && To(m, reverse).rooted
    ensures Image(m, clean, reverse) == Path(true, es)
  {
  }

  lemma AlreadyClean(es: seq<string>)
    requires Names(es)
    ensures Clean(Path(true, es)) == Path(true, es)
  {
    ScanKeepsNames(true, [], es);
    assert [] + es == es;
  }

  lemma TwoBeatsOne()
    ensures TextLength(Path(true, ["m"])) < TextLength(Path(true, ["m", "x"]))
  {
    assert IsPrefix(["m"], ["m", "x"]);
    PrefixLength(["m"], ["m", "x"]);
  }

  // ----- backup sources ------------------------------------------------------------------

  predicate UsableRoot(root: Path) {
    Clean(root).rooted && Clean(root).elems != []
  }

  /** implicitSourceMapping: the host root mirrored onto the first usable source root. */
  function ImplicitSourceMapping(roots: seq<Path>): (ms: seq<Mapping>)
    decreases |roots|
  {
    if roots == [] then []
    else if UsableRoot(roots[0]) then [Mapping(Path(true, []), Clean(roots[0]))]
    else ImplicitSourceMapping(roots[1..])
  }

  /** pathWithinAnyRoot. */
  predicate WithinAnyRoot(p: Path, roots: seq<Path>) {
    && Clean(p).rooted
    && exists i :: 0 <= i < |roots| && UsableRoot(roots[i]) && IsPrefix(Clean(roots[i]).elems, Clean(p).elems)
  }

  function EffectiveMappings(ms: seq<Mapping>, roots: seq<Path>): seq<Mapping> {
    if ms == [] then ImplicitSourceMapping(roots) else ms
  }

  function MapSourcePath(p: Path, ms: seq<Mapping>, roots: seq<Path>): Option<Path> {
    if ms == [] && WithinAnyRoot(p, roots) then Some(p)
    else MapTo(p, EffectiveMappings(ms, roots), false)
  }

  lemma {:induction false} ImplicitMappingShape(roots: seq<Path>)
    ensures var ms := ImplicitSourceMapping(roots);
            if exists i :: 0 <= i < |roots| && UsableRoot(roots[i]) then
              |ms| == 1 && ms[0].host == Path(true, []) &&
              exists i :: 0 <= i < |roots| && UsableRoot(roots[i]) && ms[0].runtime == Clean(roots[i])
            else ms == []
    decreases |roots|
  {
    if roots != [] && !UsableRoot(roots[0]) {
      ImplicitMappingShape(roots[1..]);
      forall i | 0 <= i < |roots| && UsableRoot(roots[i])
        ensures 0 <= i - 1 < |roots[1..]| && UsableRoot(roots[1..][i - 1])
      {
      }
      var ms := ImplicitSourceMapping(roots[1..]);
      if i :| 0 <= i < |roots[1..]| && UsableRoot(roots[1..][i]) && ms != [] && ms[0].runtime == Clean(roots[1..][i]) {
        assert roots[i + 1] == roots[1..][i];
      }
    }
  }

  /** Without configured mappings, mapping a source path twice is the same as mapping it once. */
  lemma ImplicitMappingIdempotent(p: Path, roots: seq<Path>)
    ensures var once := MapSourcePath(p, [], roots);
            once.Some? ==> MapSourcePath(once.value, [], roots) == once
  {
    ImplicitMappingShape(roots);
    var ms := ImplicitSourceMapping(roots);
    if !WithinAnyRoot(p, roots) && ms != [] && MapTo(p, ms, false).Some? {
      var i :| 0 <= i < |roots| && UsableRoot(roots[i]) && ms[0].runtime == Clean(roots[i]);
      var q := MapTo(p, ms, false).value;
      MappedInsideRoot(p, ms, false);
      CleanIdempotent(roots[i]);
      CleanIdempotent(Path(ms[0].runtime.rooted, ms[0].runtime.elems + Rel(Clean(ms[0].host), Clean(p))));
      assert Clean(q) == q;
      assert IsPrefix(Clean(roots[i]).elems, Clean(q).elems);
      assert WithinAnyRoot(q, roots);
    }
  }

  /** The fields of a backup task that mapBackupSource rewrites in place. */
  class BackupSource {
    const paths: array<Path>
    const excludes: array<Path>
    var path: Path
    const sqlite: bool

    constructor (paths: array<Path>, excludes: array<Path>, path: Path, sqlite: bool)
      ensures this.paths == paths && this.excludes == excludes && this.path == path && this.sqlite == sqlite
    {
      this.paths, this.excludes, this.path, this.sqlite := paths, excludes, path, sqlite;
    }
  }

  /** What the rewrite does to one entry; excludes that are patterns, not absolute paths, are kept. */
  predicate EntryMapped(before: Path, after: Path, ms: seq<Mapping>, roots: seq<Path>, onlyRooted: bool) {
    if onlyRooted && !before.rooted then after == before else MapSourcePath(before, ms, roots) == Some(after)
  }

  method MapEntry(p: Path, ms: seq<Mapping>, roots: seq<Path>) returns (r: Option<Path>)
    ensures r == MapSourcePath(p, ms, roots)
  {
    if ms == [] && WithinAnyRoot(p, roots) {
      return Some(p);
    }
    r := MapPath(p, EffectiveMappings(ms, roots), false);
  }

  /** Every entry before `n` holds its mapped path and the others are untouched. */
  ghost predicate MappedUpTo(before: seq<Path>, after: seq<Path>, n: nat, ms: seq<Mapping>, roots: seq<Path>, onlyRooted: bool) {
    && n <= |before| == |after|
    && before[n..] == after[n..]
    && (forall k :: 0 <= k < n ==> EntryMapped(before[k], after[k], ms, roots, onlyRooted))
  }

  method MapInPlace(a: array<Path>, ms: seq<Mapping>, roots: seq<Path>, onlyRooted: bool) returns (n: nat)
    modifies a
    ensures MappedUpTo(old(a[..]), a[..], n, ms, roots, onlyRooted)
    ensures n < a.Length ==> MapSourcePath(old(a[n]), ms, roots).None?
  {
    ghost var before := a[..];
    n := 0;
    while n < a.Length
      invariant MappedUpTo(before, a[..], n, ms, roots, onlyRooted)
    {
      assert a[n] == a[..][n..][0] == before[n..][0] == before[n];
      if !onlyRooted || a[n].rooted {
        var mapped := MapEntry(a[n], ms, roots);
        if mapped.None? {
          return;
        }
        a[n] := mapped.value;
      }
      assert EntryMapped(before[n], a[..][n], ms, roots, onlyRooted);
      n := n + 1;
      assert before[n..] == before[n - 1..][1..];
    }
  }

  /** mapBackupSource: paths, then absolute excludes, then the sqlite path, each replaced in place;
      an unmappable entry stops the rewrite and leaves everything after it as it was. */
  method MapBackupSource(src: BackupSource, ms: seq<Mapping>, roots: seq<Path>) returns (ok: bool, ghost n: nat, ghost m: nat)
    requires src.paths != src.excludes
    modifies src`path, src.paths, src.excludes
    ensures MappedUpTo(old(src.paths[..]), src.paths[..], n, ms, roots, false)
    ensures MappedUpTo(old(src.excludes[..]), src.excludes[..], m, ms, roots, true)
    ensures n < src.paths.Length ==> !ok && m == 0 && MapSourcePath(old(src.paths[n]), ms, roots).None?
    ensures n == src.paths.Length && m < src.excludes.Length ==> !ok && MapSourcePath(old(src.excludes[m]), ms, roots).None?
    ensures n == src.paths.Length && m == src.excludes.Length ==>
              (ok <==> !src.sqlite || MapSourcePath(old(src.path), ms, roots).Some?)
    ensures if ok && src.sqlite then MapSourcePath(old(src.path), ms, roots) == Some(src.path) else src.path == old(src.path)
  {
    var done := MapInPlace(src.paths, ms, roots, false);
    n, m := done, 0;
    if done < src.paths.Length {
      return false, n, m;
    }
    var doneExcludes := MapInPlace(src.excludes, ms, roots, true);
    m := doneExcludes;
    if doneExcludes < src.excludes.Length {
      return false, n, m;
    }
    ok := true;
    if src.sqlite {
      var mapped := MapEntry(src.path, ms, roots);
      if mapped.None? {
        ok := false;
      } else {
        src.path := mapped.value;
      }
    }
  }
}
