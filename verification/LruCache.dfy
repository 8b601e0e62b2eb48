/** The agent's cache of finished results (internal/agent/runner.go): a map and an order array shifted in
    place. It keeps exactly the most recently used keys, each with the value stored last. */
module LruCache {
  import opened Sets

  // ----- what the two operations do ------------------------------------------------------

  datatype Cache = Cache(items: map<nat, nat>, order: seq<nat>)

  datatype Op = Get(key: nat) | Put(key: nat, val: nat)

  /** The list without the first k. */
  function Without(s: seq<nat>, k: nat): (r: seq<nat>)
    ensures k !in s ==> r == s
    ensures forall x :: x != k ==> (x in r <==> x in s)
  {
    if s == [] then [] else if s[0] == k then s[1..] else [s[0]] + Without(s[1..], k)
  }

  function ToFront(s: seq<nat>, k: nat): seq<nat> {
    [k] + Without(s, k)
  }

  predicate Distinct(s: seq<nat>) {
    s == [] || (s[0] !in s[1..] && Distinct(s[1..]))
  }

  function Elems(s: seq<nat>): set<nat> {
    set x | x in s
  }

  predicate Valid(c: Cache, cap: nat) {
    Distinct(c.order) && c.items.Keys == Elems(c.order) && |c.order| <= cap
  }

  function Got(c: Cache, k: nat): Cache {
    if k in c.items then c.(order := ToFront(c.order, k)) else c
  }

  function Stored(c: Cache, k: nat, v: nat, cap: nat): Cache {
    if k in c.items then Cache(c.items[k := v], ToFront(c.order, k))
    else if |c.order| >= cap && c.order != [] then
      Cache((c.items - {c.order[|c.order| - 1]})[k := v], [k] + c.order[..|c.order| - 1])
    else Cache(c.items[k := v], [k] + c.order)
  }

  function Step(c: Cache, op: Op, cap: nat): Cache {
    match op
    case Get(k) => Got(c, k)
    case Put(k, v) => Stored(c, k, v, cap)
  }

  function Run(ops: seq<Op>, cap: nat): Cache {
    if ops == [] then Cache(map[], []) else Step(Run(ops[..|ops| - 1], cap), ops[|ops| - 1], cap)
  }

  // ----- the cache in memory -------------------------------------------------------------

  class Lru {
    const cap: nat
    var items: map<nat, nat>
    var order: array<nat>
    var len: nat

    ghost predicate Ok()
      reads this, order
    {
      len <= order.Length && Valid(View(), cap) && 1 <= cap
    }

    ghost function View(): Cache
      reads this, order
    {
      Cache(items, order[..if len <= order.Length then len else 0])
    }

    constructor (cap: nat)
      requires 1 <= cap
      ensures Ok() && this.cap == cap && View() == Cache(map[], []) && fresh(order)
    {
      this.cap := cap;
      items, len, order := map[], 0, new nat[cap];
    }

    method Get(k: nat) returns (found: bool, val: nat)
      requires Ok()
      modifies this`items, order
      ensures Ok() && View() == Got(old(View()), k) && items == old(items)
      ensures found == (k in items) && (found ==> val == items[k])
    {
      if k !in items {
        return false, 0;
      }
      MoveToFront(k);
      return true, items[k];
    }

    method Put(k: nat, val: nat)
      requires Ok()
      modifies this, order
      ensures Ok() && View() == Stored(old(View()), k, val, cap)
      ensures order == old(order) || fresh(order)
    {
      ghost var c := View();
      StoredValid(c, k, val, cap);
      if k in items {
        items := items[k := val];
        assert items.Keys == c.items.Keys;
        MoveToFront(k);
        return;
      }
      SizeIsLength(c, cap);
      if |items| >= cap {
        Evict();
      }
      items := items[k := val];
      order := Prepended(k);
      len := len + 1;
      assert order[..len] == order[..];
    }

    /** Drops the least recently used key. */
    method Evict()
      requires Ok() && len > 0
      modifies this`items, this`len
      ensures Ok() && len == old(len) - 1
      ensures View() == Cache(old(items) - {old(order[len - 1])}, old(View()).order[..len])
    {
      EvictedValid(View(), cap);
      ghost var was := order[..len];
      items := items - {order[len - 1]};
      len := len - 1;
      assert order[..len] == was[..len];
    }

    /** append([]string{key}, order...) */
    method Prepended(k: nat) returns (front: array<nat>)
      requires len <= order.Length
      ensures fresh(front) && front[..] == [k] + order[..len]
    {
      front := new nat[len + 1];
      front[0] := k;
      for i := 0 to len
        invariant front[0] == k && front[1..i + 1] == order[..i]
      {
        front[i + 1] := order[i];
      }
    }

    method MoveToFront(k: nat)
      requires Ok() && k in items
      modifies order
      ensures Ok() && View() == old(View()).(order := ToFront(old(View()).order, k))
    {
      ghost var was := order[..];
      ToFrontValid(View(), cap, k);
      ghost var at :| 0 <= at < len && was[at] == k;
      for i := 0 to len
        invariant order[..] == was && k !in was[..i] && i <= at
      {
        if order[i] == k {
          if i > 0 {
            Shift(i);
            order[0] := k;
          }
          MovedToFront(was, order[..], i, len);
          return;
        }
      }
      assert false;
    }

    /** copy(order[1:i+1], order[0:i]), which reads every element before it overwrites it. */
    method Shift(i: nat)
      requires 0 < i < order.Length
      modifies order
      ensures forall m :: 0 <= m < order.Length ==> order[m] == old(order[if 0 < m <= i then m - 1 else m])
    {
      var j := i;
      while j > 0
        invariant 0 <= j <= i
        invariant forall m :: 0 <= m < order.Length ==> order[m] == old(order[if j < m <= i then m - 1 else m])
      {
        order[j] := order[j - 1];
        j := j - 1;
      }
    }
  }

  lemma MovedToFront(was: seq<nat>, now: seq<nat>, i: nat, n: nat)
    requires i < n <= |was| == |now| && now[0] == was[i] && was[i] !in was[..i]
    requires forall m :: 0 < m < |was| ==> now[m] == was[if m <= i then m - 1 else m]
    ensures now[..n] == ToFront(was[..n], was[i])
  {
    assert was[..n][..i] == was[..i];
    WithoutAt(was[..n], i);
    assert now[..n] == [was[i]] + (was[..i] + was[..n][i + 1..]);
  }

  // ----- the shape is kept ---------------------------------------------------------------

  lemma {:induction false} WithoutAt(s: seq<nat>, i: nat)
    requires i < |s| && s[i] !in s[..i]
    ensures Without(s, s[i]) == s[..i] + s[i + 1..]
  {
    if i > 0 {
      var t := s[1..];
      assert t[i - 1] == s[i] && t[..i - 1] == s[..i][1..] && t[i..] == s[i + 1..];
      assert s[..i][0] == s[0];
      WithoutAt(t, i - 1);
      assert [s[0]] + t[..i - 1] == s[..i];
    }
  }

  lemma {:induction false} WithoutDistinct(s: seq<nat>, k: nat)
    requires Distinct(s)
    ensures Distinct(Without(s, k)) && k !in Without(s, k) && |Without(s, k)| == |s| - if k in s then 1 else 0
  {
    if s != [] && s[0] != k {
      WithoutDistinct(s[1..], k);
    }
  }

  lemma {:induction false} PrefixDistinct(s: seq<nat>, n: nat)
    requires Distinct(s) && n <= |s|
    ensures Distinct(s[..n]) && (n < |s| ==> s[n] !in s[..n])
  {
    if n > 0 {
      PrefixDistinct(s[1..], n - 1);
      assert s[1..][..n - 1] == s[..n][1..];
      assert n < |s| ==> s[1..][n - 1] == s[n] && s[n] in s[1..];
    }
  }

  lemma SizeIsLength(c: Cache, cap: nat)
    requires Valid(c, cap)
    ensures |c.items| == |c.order|
  {
    LengthIsSize(c.order);
  }

  lemma {:induction false} LengthIsSize(s: seq<nat>)
    requires Distinct(s)
    ensures |Elems(s)| == |s|
  {
    if s != [] {
      LengthIsSize(s[1..]);
      assert Elems(s) == Elems(s[1..]) + {s[0]};
    }
  }

  lemma ToFrontValid(c: Cache, cap: nat, k: nat)
    requires Valid(c, cap) && k in c.items
    ensures Valid(c.(order := ToFront(c.order, k)), cap)
  {
    WithoutDistinct(c.order, k);
  }

  lemma StoredValid(c: Cache, k: nat, v: nat, cap: nat)
    requires Valid(c, cap) && 1 <= cap
    ensures Valid(Stored(c, k, v, cap), cap)
  {
    if k in c.items {
      ToFrontValid(c, cap, k);
    } else if |c.order| >= cap {
      EvictedValid(c, cap);
      PushedValid(Cache(c.items - {c.order[|c.order| - 1]}, c.order[..|c.order| - 1]), k, v, cap);
    } else {
      PushedValid(c, k, v, cap);
    }
  }

  lemma EvictedValid(c: Cache, cap: nat)
    requires Valid(c, cap) && c.order != []
    ensures var n := |c.order| - 1; Valid(Cache(c.items - {c.order[n]}, c.order[..n]), cap)
  {
    var n := |c.order| - 1;
    PrefixDistinct(c.order, n);
    assert c.order == c.order[..n] + [c.order[n]];
  }

  lemma PushedValid(c: Cache, k: nat, v: nat, cap: nat)
    requires Valid(c, cap) && k !in c.items && |c.order| < cap
    ensures Valid(Cache(c.items[k := v], [k] + c.order), cap)
  {
    assert ([k] + c.order)[1..] == c.order;
  }

  /** No duplicates, the order holds exactly the map's keys, and the size never exceeds the capacity. */
  lemma {:induction false} RunValid(ops: seq<Op>, cap: nat)
    requires 1 <= cap
    ensures Valid(Run(ops, cap), cap)
  {
    if ops != [] {
      var before := Run(ops[..|ops| - 1], cap);
      RunValid(ops[..|ops| - 1], cap);
      match ops[|ops| - 1]
      case Get(k) => if k in before.items { ToFrontValid(before, cap, k); }
      case Put(k, v) => StoredValid(before, k, v, cap);
    }
  }

  // ----- the cache is the list of the most recently used keys ------------------------------

  /** All keys ever used, the most recently used first; nothing is ever evicted from it. */
  function Recency(uses: seq<nat>): (r: seq<nat>)
  {
    if uses == [] then [] else ToFront(Recency(uses[..|uses| - 1]), uses[|uses| - 1])
  }

  /** The keys in the order in which operations used them: every put, and every get that hits. */
  function Uses(ops: seq<Op>, cap: nat): seq<nat> {
    if ops == [] then []
    else
      var before, op := ops[..|ops| - 1], ops[|ops| - 1];
      Uses(before, cap) + if op.Put? || op.key in Run(before, cap).items then [op.key] else []
  }

  function Taken(s: seq<nat>, n: nat): seq<nat> {
    if n <= |s| then s[..n] else s
  }

  lemma {:induction false} RecencyDistinct(uses: seq<nat>)
    ensures Distinct(Recency(uses))
    ensures forall x :: x in Recency(uses) <==> x in uses
  {
    if uses != [] {
      var n := |uses| - 1;
      RecencyDistinct(uses[..n]);
      WithoutDistinct(Recency(uses[..n]), uses[n]);
      assert uses == uses[..n] + [uses[n]];
    }
  }

  /** Using a key among the first n only reorders them; using another pushes the last of them out. */
  lemma {:induction false} ToFrontTaken(s: seq<nat>, k: nat, n: nat)
    requires 1 <= n
    ensures k in Taken(s, n) ==> Taken(ToFront(s, k), n) == ToFront(Taken(s, n), k)
    ensures k !in Taken(s, n) ==> Taken(ToFront(s, k), n) == [k] + Taken(s, n - 1)
  {
    WithoutTaken(s, k, n);
  }

  lemma {:induction false} WithoutTaken(s: seq<nat>, k: nat, n: nat)
    requires 1 <= n
    ensures Taken(Without(s, k), n - 1) == if k in Taken(s, n) then Without(Taken(s, n), k) else Taken(s, n - 1)
  {
    if s != [] && s[0] != k && n > 1 {
      WithoutTaken(s[1..], k, n - 1);
      TakenFirst(s, n);
      TakenFirst(s, n - 1);
      TakenFirst(Without(s, k), n - 1);
    }
  }

  lemma TakenFirst(s: seq<nat>, n: nat)
    requires s != [] && 1 <= n
    ensures Taken(s, n) == [s[0]] + Taken(s[1..], n - 1) && Taken(s, n)[1..] == Taken(s[1..], n - 1)
  {
  }

  lemma {:induction false} KeepsMostRecent(ops: seq<Op>, cap: nat)
    requires 1 <= cap
    ensures Run(ops, cap).order == Taken(Recency(Uses(ops, cap)), cap)
  {
    if ops != [] {
      var before := ops[..|ops| - 1];
      KeepsMostRecent(before, cap);
      RunValid(before, cap);
      StepKeepsMostRecent(Run(before, cap), ops[|ops| - 1], cap, Uses(before, cap));
    }
  }

  lemma StepKeepsMostRecent(c: Cache, op: Op, cap: nat, uses: seq<nat>)
    requires 1 <= cap && Valid(c, cap) && c.order == Taken(Recency(uses), cap)
    ensures Step(c, op, cap).order == Taken(Recency(uses + if op.Put? || op.key in c.items then [op.key] else []), cap)
  {
    assert (uses + [op.key])[..|uses|] == uses && uses + [] == uses;
    assert op.key in c.items <==> op.key in c.order;
    ToFrontTaken(Recency(uses), op.key, cap);
  }

  /** The value stored last for the key. */
  function LastStored(ops: seq<Op>, k: nat): (v: nat)
    requires exists i :: 0 <= i < |ops| && ops[i].Put? && ops[i].key == k
  {
    var op := ops[|ops| - 1];
    if op.Put? && op.key == k then op.val else LastStored(ops[..|ops| - 1], k)
  }

  lemma {:induction false} HoldsLastStored(ops: seq<Op>, cap: nat, k: nat)
    requires 1 <= cap && k in Run(ops, cap).items
    ensures exists i :: 0 <= i < |ops| && ops[i].Put? && ops[i].key == k
    ensures Run(ops, cap).items[k] == LastStored(ops, k)
  {
    if ops != [] {
      var before, op := ops[..|ops| - 1], ops[|ops| - 1];
      if op.Put? && op.key == k {
        assert ops[|ops| - 1].Put?;
      } else {
        HoldsLastStored(before, cap, k);
        var i :| 0 <= i < |before| && before[i].Put? && before[i].key == k;
        assert ops[i].Put? && ops[i].key == k;
      }
    }
  }

  /** The other keys that a run of operations names. */
  function Others(ops: seq<Op>, k: nat): set<nat> {
    set i | 0 <= i < |ops| && ops[i].key != k :: ops[i].key
  }

  /** k is in the list, and every key in front of it is one of `ahead`. */
  ghost predicate Behind(order: seq<nat>, k: nat, ahead: set<nat>) {
    exists i :: 0 <= i < |order| && order[i] == k && forall j :: 0 <= j < i ==> order[j] in ahead
  }

  lemma {:induction false} WithoutBehind(s: seq<nat>, x: nat, k: nat, ahead: set<nat>)
    requires x != k && Behind(s, k, ahead)
    ensures Behind(Without(s, x), k, ahead)
  {
    var i :| 0 <= i < |s| && s[i] == k && forall j :: 0 <= j < i ==> s[j] in ahead;
    var w := Without(s, x);
    if i == 0 {
      assert w[0] == k;
    } else if s[0] == x {
      assert w[i - 1] == k;
    } else {
      var rest := Without(s[1..], x);
      assert s[1..][i - 1] == k;
      WithoutBehind(s[1..], x, k, ahead);
      var m :| 0 <= m < |rest| && rest[m] == k && forall j :: 0 <= j < m ==> rest[j] in ahead;
      assert w[m + 1] == k;
    }
  }

  lemma PutBehind(s: seq<nat>, x: nat, k: nat, ahead: set<nat>)
    requires x != k && Behind(s, k, ahead)
    ensures Behind([x] + s, k, ahead + {x})
  {
    var i :| 0 <= i < |s| && s[i] == k && forall j :: 0 <= j < i ==> s[j] in ahead;
    assert ([x] + s)[i + 1] == k;
  }

  /** The key that is evicted is not k: all keys but it would be in front of k, and x besides. */
  lemma EvictedBehind(s: seq<nat>, x: nat, k: nat, ahead: set<nat>, cap: nat)
    requires Distinct(s) && |s| >= cap && x !in s && Behind(s, k, ahead) && |ahead + {x}| < cap
    ensures s != [] && Behind(s[..|s| - 1], k, ahead)
  {
    var i :| 0 <= i < |s| && s[i] == k && forall j :: 0 <= j < i ==> s[j] in ahead;
    if i == |s| - 1 {
      var front := Elems(s[..i]);
      PrefixDistinct(s, i);
      LengthIsSize(s[..i]);
      assert x !in front;
      SubsetSize(front + {x}, ahead + {x});
    } else {
      assert s[..|s| - 1][i] == k;
    }
  }

  /** One operation keeps k behind the other keys named. */
  lemma StepBehind(c: Cache, op: Op, k: nat, cap: nat, ahead: set<nat>)
    requires Valid(c, cap) && Behind(c.order, k, ahead) && (op.key == k || |ahead + {op.key}| < cap)
    ensures Behind(Step(c, op, cap).order, k, if op.key == k then ahead else ahead + {op.key})
  {
    var i :| 0 <= i < |c.order| && c.order[i] == k && forall j :: 0 <= j < i ==> c.order[j] in ahead;
    assert k in c.items;
    if op.key == k {
      assert Step(c, op, cap).order[0] == k;
    } else if op.key in c.items {
      WithoutBehind(c.order, op.key, k, ahead);
      PutBehind(Without(c.order, op.key), op.key, k, ahead);
    } else if op.Put? && |c.order| >= cap {
      EvictedBehind(c.order, op.key, k, ahead, cap);
      PutBehind(c.order[..|c.order| - 1], op.key, k, ahead);
    } else if op.Put? {
      PutBehind(c.order, op.key, k, ahead);
    }
  }

  lemma OthersLast(ops: seq<Op>, k: nat)
    requires ops != []
    ensures var n := |ops| - 1; Others(ops, k) == Others(ops[..n], k) + if ops[n].key == k then {} else {ops[n].key}
  {
    var n := |ops| - 1;
    forall x | x in Others(ops, k)
      ensures x in Others(ops[..n], k) || x == ops[n].key != k
    {
      var i :| 0 <= i < |ops| && ops[i].key != k && ops[i].key == x;
      if i < n {
        assert ops[..n][i].key == x;
      }
    }
    forall x | x in Others(ops[..n], k)
      ensures x in Others(ops, k)
    {
      var i :| 0 <= i < n && ops[..n][i].key != k && ops[..n][i].key == x;
      assert ops[i].key == x;
    }
  }

  /** The keys in front of k have all been named since k was last used. */
  lemma {:induction false} OnlyOthersAhead(ops: seq<Op>, more: seq<Op>, k: nat, cap: nat)
    requires 1 <= cap && Run(ops, cap).order != [] && Run(ops, cap).order[0] == k
    requires |Others(more, k)| < cap
    ensures Behind(Run(ops + more, cap).order, k, Others(more, k))
  {
    if more == [] {
      assert ops + more == ops;
    } else {
      var n := |more| - 1;
      OthersLast(more, k);
      SubsetSize(Others(more[..n], k), Others(more, k));
      OnlyOthersAhead(ops, more[..n], k, cap);
      RunLast(ops, more, cap);
      RunValid(ops + more[..n], cap);
      StepBehind(Run(ops + more[..n], cap), more[n], k, cap, Others(more[..n], k));
    }
  }

  lemma RunLast(ops: seq<Op>, more: seq<Op>, cap: nat)
    requires more != []
    ensures var n := |more| - 1; Run(ops + more, cap) == Step(Run(ops + more[..n], cap), more[n], cap)
  {
    var n, all := |more| - 1, ops + more;
    assert all[..|all| - 1] == ops + more[..n] && all[|all| - 1] == more[n];
    RunUnfolds(all, cap);
  }

  lemma RunUnfolds(ops: seq<Op>, cap: nat)
    requires ops != []
    ensures Run(ops, cap) == Step(Run(ops[..|ops| - 1], cap), ops[|ops| - 1], cap)
  {
  }

  /** A key just used (put, or got with a hit) is still there after any gets and puts that name fewer than
      cap distinct other keys; the value is the one stored for it last. */
  lemma UsedKeySurvives(ops: seq<Op>, used: Op, more: seq<Op>, cap: nat)
    requires 1 <= cap && (used.Put? || used.key in Run(ops, cap).items)
    requires |Others(more, used.key)| < cap
    ensures var all := ops + [used] + more;
      && used.key in Run(all, cap).items
      && (exists i :: 0 <= i < |all| && all[i].Put? && all[i].key == used.key)
      && Run(all, cap).items[used.key] == LastStored(all, used.key)
  {
    var all := ops + [used] + more;
    assert (ops + [used])[..|ops|] == ops;
    RunValid(all, cap);
    OnlyOthersAhead(ops + [used], more, used.key, cap);
    HoldsLastStored(all, cap, used.key);
  }
}
