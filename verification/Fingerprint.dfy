/** The normal form under the snapshot fingerprint (internal/server/store/store.go): tags and paths sorted,
    snapshots sorted stably by id, time and host, all on copies. */
module Fingerprint {

  // ----- orders --------------------------------------------------------------------------

  ghost predicate StrictTotal<K(!new)>(less: (K, K) -> bool) {
    && (forall a, b :: less(a, b) ==> !less(b, a) && a != b)
    && (forall a, b :: a == b || less(a, b) || less(b, a))
    && (forall a, b, c :: less(a, b) && less(b, c) ==> less(a, c))
  }

  /** Go's order of strings. */
  predicate StringLess(a: string, b: string) {
    b != "" && (a == "" || a[0] < b[0] || (a[0] == b[0] && StringLess(a[1..], b[1..])))
  }

  datatype Key = Key(id: string, time: string, host: string)

  /** The comparison function given to sort.SliceStable. */
  predicate KeyLess(a: Key, b: Key) {
    if a.id != b.id then StringLess(a.id, b.id)
    else if a.time != b.time then StringLess(a.time, b.time)
    else StringLess(a.host, b.host)
  }

  lemma {:induction false} StringLessAsymmetric(a: string, b: string)
    requires StringLess(a, b)
    ensures !StringLess(b, a) && a != b
  {
    if a != "" && a[0] == b[0] {
      StringLessAsymmetric(a[1..], b[1..]);
    }
  }

  lemma {:induction false} StringLessTotal(a: string, b: string)
    ensures a == b || StringLess(a, b) || StringLess(b, a)
  {
    if a != "" && b != "" && a[0] == b[0] {
      StringLessTotal(a[1..], b[1..]);
      assert a == [a[0]] + a[1..] && b == [b[0]] + b[1..];
    }
  }

  lemma {:induction false} StringLessTransitive(a: string, b: string, c: string)
    requires StringLess(a, b) && StringLess(b, c)
    ensures StringLess(a, c)
  {
    if a != "" && a[0] == b[0] && b[0] == c[0] {
      StringLessTransitive(a[1..], b[1..], c[1..]);
    }
  }

  lemma StringsOrdered()
    ensures StrictTotal(StringLess)
  {
    forall a, b
      ensures StringLess(a, b) ==> !StringLess(b, a) && a != b
      ensures a == b || StringLess(a, b) || StringLess(b, a)
    {
      StringLessTotal(a, b);
      if StringLess(a, b) {
        StringLessAsymmetric(a, b);
      }
    }
    forall a, b, c | StringLess(a, b) && StringLess(b, c)
      ensures StringLess(a, c)
    {
      StringLessTransitive(a, b, c);
    }
  }

  lemma KeysOrdered()
    ensures StrictTotal(KeyLess)
  {
    StringsOrdered();
    forall a: Key, b: Key
      ensures KeyLess(a, b) ==> !KeyLess(b, a) && a != b
      ensures a == b || KeyLess(a, b) || KeyLess(b, a)
    {
      StringLessTotal(a.id, b.id);
      StringLessTotal(a.time, b.time);
      StringLessTotal(a.host, b.host);
    }
  }

  // ----- stable sorting ------------------------------------------------------------------

  /** x goes in front of the first element that is not smaller, so equal elements keep their order. */
  function Insert<T, K>(x: T, s: seq<T>, key: T -> K, less: (K, K) -> bool): seq<T> {
    if s != [] && less(key(s[0]), key(x)) then [s[0]] + Insert(x, s[1..], key, less) else [x] + s
  }

  function StableSort<T, K>(s: seq<T>, key: T -> K, less: (K, K) -> bool): seq<T> {
    if s == [] then [] else Insert(s[0], StableSort(s[1..], key, less), key, less)
  }

  predicate Sorted<T, K>(s: seq<T>, key: T -> K, less: (K, K) -> bool) {
    forall i, j :: 0 <= i < j < |s| ==> !less(key(s[j]), key(s[i]))
  }

  /** The elements with the key, in order. */
  function With<T, K(==)>(s: seq<T>, k: K, key: T -> K): seq<T> {
    if s == [] then [] else (if key(s[0]) == k then [s[0]] else []) + With(s[1..], k, key)
  }

  lemma {:induction false} InsertAdds<T, K>(x: T, s: seq<T>, key: T -> K, less: (K, K) -> bool)
    ensures multiset(Insert(x, s, key, less)) == multiset{x} + multiset(s)
  {
    if s != [] && less(key(s[0]), key(x)) {
      InsertAdds(x, s[1..], key, less);
      assert s == [s[0]] + s[1..];
    }
  }

  lemma WithFirst<T, K>(x: T, s: seq<T>, key: T -> K, k: K)
    ensures With([x] + s, k, key) == (if key(x) == k then [x] else []) + With(s, k, key)
  {
    assert ([x] + s)[1..] == s;
  }

  lemma {:induction false} InsertKeeps<T, K(!new)>(x: T, s: seq<T>, key: T -> K, less: (K, K) -> bool, k: K)
    requires forall a :: !less(a, a)
    ensures With(Insert(x, s, key, less), k, key) == (if key(x) == k then [x] else []) + With(s, k, key)
  {
    if s != [] && less(key(s[0]), key(x)) {
      var rest := Insert(x, s[1..], key, less);
      InsertKeeps(x, s[1..], key, less, k);
      WithFirst(s[0], rest, key, k);
      assert key(s[0]) != key(x);
    } else {
      WithFirst(x, s, key, k);
    }
  }

  lemma {:induction false} InsertSorted<T, K(!new)>(x: T, s: seq<T>, key: T -> K, less: (K, K) -> bool)
    requires StrictTotal(less) && Sorted(s, key, less)
    ensures Sorted(Insert(x, s, key, less), key, less)
  {
    if s != [] && less(key(s[0]), key(x)) {
      var rest := Insert(x, s[1..], key, less);
      InsertSorted(x, s[1..], key, less);
      InsertAdds(x, s[1..], key, less);
      forall y | y in rest
        ensures !less(key(y), key(s[0]))
      {
        assert y in multiset(rest);
        assert y == x || y in s[1..];
      }
    }
  }

  lemma {:induction false} SortSorts<T, K(!new)>(s: seq<T>, key: T -> K, less: (K, K) -> bool)
    requires StrictTotal(less)
    ensures Sorted(StableSort(s, key, less), key, less)
  {
    if s != [] {
      SortSorts(s[1..], key, less);
      InsertSorted(s[0], StableSort(s[1..], key, less), key, less);
    }
  }

  /** The sort keeps the elements, and the order of those with equal keys. */
  lemma {:induction false} SortKeeps<T, K(!new)>(s: seq<T>, key: T -> K, less: (K, K) -> bool, k: K)
    requires forall a :: !less(a, a)
    ensures With(StableSort(s, key, less), k, key) == With(s, k, key)
  {
    if s != [] {
      SortKeeps(s[1..], key, less, k);
      InsertKeeps(s[0], StableSort(s[1..], key, less), key, less, k);
    }
  }

  lemma {:induction false} SortPermutes<T, K>(s: seq<T>, key: T -> K, less: (K, K) -> bool)
    ensures multiset(StableSort(s, key, less)) == multiset(s)
  {
    if s != [] {
      SortPermutes(s[1..], key, less);
      InsertAdds(s[0], StableSort(s[1..], key, less), key, less);
      assert s == [s[0]] + s[1..];
    }
  }

  lemma {:induction false} WithIsIn<T, K>(s: seq<T>, k: K, key: T -> K)
    ensures With(s, k, key) != [] <==> exists i :: 0 <= i < |s| && key(s[i]) == k
  {
    if s != [] {
      WithIsIn(s[1..], k, key);
      if i :| 0 <= i < |s[1..]| && key(s[1..][i]) == k {
        assert key(s[i + 1]) == k;
      }
      if i :| 1 <= i < |s| && key(s[i]) == k {
        assert key(s[1..][i - 1]) == k;
      }
    }
  }

  /** A sorted list is determined by its elements with each key. */
  lemma {:induction false} SortedUnique<T, K(!new)>(a: seq<T>, b: seq<T>, key: T -> K, less: (K, K) -> bool)
    requires StrictTotal(less) && Sorted(a, key, less) && Sorted(b, key, less)
    requires forall k :: With(a, k, key) == With(b, k, key)
    ensures a == b
  {
    if a == [] {
      if b != [] {
        HeadFirst(b, a, key, less);
      }
    } else {
      HeadFirst(a, b, key, less);
      HeadFirst(b, a, key, less);
      assert key(a[0]) == key(b[0]);
      assert With(a, key(a[0]), key)[0] == a[0] && With(b, key(b[0]), key)[0] == b[0];
      assert a[0] == b[0];
      forall k
        ensures With(a[1..], k, key) == With(b[1..], k, key)
      {
        assert With(a, k, key) == With(b, k, key);
        WithTail(a, k, key);
        WithTail(b, k, key);
      }
      SortedUnique(a[1..], b[1..], key, less);
      assert a == [a[0]] + a[1..] && b == [b[0]] + b[1..];
    }
  }

  lemma WithTail<T, K>(s: seq<T>, k: K, key: T -> K)
    requires s != []
    ensures With(s[1..], k, key) == With(s, k, key)[if key(s[0]) == k then 1 else 0..]
  {
  }

  lemma HeadFirst<T, K(!new)>(a: seq<T>, b: seq<T>, key: T -> K, less: (K, K) -> bool)
    requires StrictTotal(less) && Sorted(b, key, less) && a != []
    requires forall k :: With(a, k, key) == With(b, k, key)
    ensures b != [] && !less(key(a[0]), key(b[0]))
  {
    var k := key(a[0]);
    assert With(a, k, key) == With(b, k, key);
    WithIsIn(a, k, key);
    WithIsIn(b, k, key);
    var i :| 0 <= i < |b| && key(b[i]) == k;
  }

  /** Sorting stably forgets exactly the order between elements with different keys. */
  lemma SortExact<T, K(!new)>(a: seq<T>, b: seq<T>, key: T -> K, less: (K, K) -> bool)
    requires StrictTotal(less)
    ensures StableSort(a, key, less) == StableSort(b, key, less) <==> forall k :: With(a, k, key) == With(b, k, key)
  {
    var s, t := StableSort(a, key, less), StableSort(b, key, less);
    SortSorts(a, key, less);
    SortSorts(b, key, less);
    assert forall x :: !less(x, x);
    forall k
      ensures With(s, k, key) == With(a, k, key) && With(t, k, key) == With(b, k, key)
    {
      SortKeeps(a, key, less, k);
      SortKeeps(b, key, less, k);
    }
    if forall k :: With(a, k, key) == With(b, k, key) {
      SortedUnique(s, t, key, less);
    } else {
      var k :| With(a, k, key) != With(b, k, key);
      assert With(s, k, key) == With(a, k, key);
    }
  }

  // ----- the normal form -----------------------------------------------------------------

  /** A snapshot's contents; an absent list and an empty one are the same here, as after the copy. */
  datatype Value = Value(id: string, time: string, host: string, tags: seq<string>, paths: seq<string>)

  function KeyOf(v: Value): Key {
    Key(v.id, v.time, v.host)
  }

  function Self(s: string): string {
    s
  }

  function SortStrings(s: seq<string>): seq<string> {
    StableSort(s, Self, StringLess)
  }

  function Inner(v: Value): Value {
    v.(tags := SortStrings(v.tags), paths := SortStrings(v.paths))
  }

  function InnerAll(s: seq<Value>): seq<Value> {
    seq(|s|, i requires 0 <= i < |s| => Inner(s[i]))
  }

  function NormalForm(s: seq<Value>): seq<Value> {
    StableSort(InnerAll(s), KeyOf, KeyLess)
  }

  /** A snapshot up to the order of its tags and paths. */
  datatype Bag = Bag(id: string, time: string, host: string, tags: multiset<string>, paths: multiset<string>)

  function BagOf(v: Value): Bag {
    Bag(v.id, v.time, v.host, multiset(v.tags), multiset(v.paths))
  }

  function Bags(s: seq<Value>): set<Bag> {
    set i | 0 <= i < |s| :: BagOf(s[i])
  }

  predicate DistinctIds(s: seq<Value>) {
    forall i, j :: 0 <= i < j < |s| ==> s[i].id != s[j].id
  }

  lemma {:induction false} WithSelf(s: seq<string>, k: string)
    ensures With(s, k, Self) == seq(multiset(s)[k], _ => k)
  {
    if s != [] {
      WithSelf(s[1..], k);
      assert s == [s[0]] + s[1..];
    }
  }

  lemma StringsExact(a: seq<string>, b: seq<string>)
    ensures SortStrings(a) == SortStrings(b) <==> forall k :: With(a, k, Self) == With(b, k, Self)
    ensures multiset(SortStrings(a)) == multiset(a)
  {
    StringsOrdered();
    SortPermutes(a, Self, StringLess);
    SortExact(a, b, Self, StringLess);
  }

  /** Sorting strings forgets exactly their order. */
  lemma StringsCanonical(a: seq<string>, b: seq<string>)
    ensures SortStrings(a) == SortStrings(b) <==> multiset(a) == multiset(b)
  {
    StringsExact(a, b);
    StringsExact(b, a);
    if multiset(a) == multiset(b) {
      forall k
        ensures With(a, k, Self) == With(b, k, Self)
      {
        WithSelf(a, k);
        WithSelf(b, k);
      }
    }
  }

  lemma InnerCanonical(u: Value, v: Value)
    ensures Inner(u) == Inner(v) <==> BagOf(u) == BagOf(v)
  {
    StringsCanonical(u.tags, v.tags);
    StringsCanonical(u.paths, v.paths);
  }

  /** Two lists have the same normal form exactly when, for every key, they list the same snapshots with
      that key, up to the order of tags and paths, in the same order. */
  lemma NormalFormExact(a: seq<Value>, b: seq<Value>)
    ensures NormalForm(a) == NormalForm(b) <==> forall k :: With(InnerAll(a), k, KeyOf) == With(InnerAll(b), k, KeyOf)
  {
    KeysOrdered();
    SortExact(InnerAll(a), InnerAll(b), KeyOf, KeyLess);
  }

  lemma {:induction false} WithUnique(s: seq<Value>, i: nat)
    requires DistinctIds(s) && i < |s|
    ensures With(s, KeyOf(s[i]), KeyOf) == [s[i]]
  {
    var k := KeyOf(s[i]);
    WithIsIn(s[1..], k, KeyOf);
    if i > 0 {
      WithUnique(s[1..], i - 1);
    }
  }

  lemma BagsFrom(a: seq<Value>, b: seq<Value>)
    requires NormalForm(a) == NormalForm(b)
    ensures Bags(a) <= Bags(b)
  {
    SortPermutes(InnerAll(a), KeyOf, KeyLess);
    SortPermutes(InnerAll(b), KeyOf, KeyLess);
    forall i | 0 <= i < |a|
      ensures BagOf(a[i]) in Bags(b)
    {
      assert InnerAll(a)[i] in multiset(InnerAll(b));
      var j :| 0 <= j < |b| && InnerAll(b)[j] == InnerAll(a)[i];
      InnerCanonical(a[i], b[j]);
    }
  }

  lemma WithFrom(a: seq<Value>, b: seq<Value>, k: Key)
    requires DistinctIds(a) && DistinctIds(b) && Bags(a) <= Bags(b) && With(InnerAll(a), k, KeyOf) != []
    ensures With(InnerAll(a), k, KeyOf) == With(InnerAll(b), k, KeyOf)
  {
    WithIsIn(InnerAll(a), k, KeyOf);
    var i :| 0 <= i < |a| && KeyOf(InnerAll(a)[i]) == k;
    assert BagOf(a[i]) in Bags(b);
    var j :| 0 <= j < |b| && BagOf(b[j]) == BagOf(a[i]);
    InnerCanonical(a[i], b[j]);
    WithUnique(InnerAll(a), i);
    WithUnique(InnerAll(b), j);
  }

  /** For lists with distinct ids the normal form is canonical: it is equal exactly when the lists agree up
      to the order of snapshots, of tags and of paths. */
  lemma Canonical(a: seq<Value>, b: seq<Value>)
    requires DistinctIds(a) && DistinctIds(b)
    ensures NormalForm(a) == NormalForm(b) <==> Bags(a) == Bags(b)
  {
    NormalFormExact(a, b);
    if NormalForm(a) == NormalForm(b) {
      BagsFrom(a, b);
      BagsFrom(b, a);
    }
    if Bags(a) == Bags(b) {
      forall k
        ensures With(InnerAll(a), k, KeyOf) == With(InnerAll(b), k, KeyOf)
      {
        if With(InnerAll(a), k, KeyOf) != [] {
          WithFrom(a, b, k);
        } else if With(InnerAll(b), k, KeyOf) != [] {
          WithFrom(b, a, k);
        }
      }
    }
  }

  /** Two different snapshots with one id, time and host: the normal form still depends on their order. */
  lemma TiesStayInOrder(u: Value, v: Value)
    requires KeyOf(u) == KeyOf(v) && BagOf(u) != BagOf(v)
    ensures NormalForm([u, v]) != NormalForm([v, u]) && Bags([u, v]) == Bags([v, u])
  {
    InnerCanonical(u, v);
    FirstWith([u, v], KeyOf(u));
    FirstWith([v, u], KeyOf(u));
    NormalFormExact([u, v], [v, u]);
    BagsSwap(u, v);
  }

  lemma BagsSwap(u: Value, v: Value)
    ensures Bags([u, v]) == {BagOf(u), BagOf(v)} && Bags([u, v]) == Bags([v, u])
  {
    assert [u, v][0] == u && [u, v][1] == v && [v, u][0] == v && [v, u][1] == u;
    assert Bags([u, v]) == {BagOf(u), BagOf(v)};
    assert Bags([v, u]) == {BagOf(u), BagOf(v)};
  }

  lemma FirstWith(s: seq<Value>, k: Key)
    requires s != [] && KeyOf(s[0]) == k
    ensures With(InnerAll(s), k, KeyOf) != [] && With(InnerAll(s), k, KeyOf)[0] == Inner(s[0])
  {
  }

  // ----- the computation on slices -------------------------------------------------------

  /** A snapshot in memory; its lists may be shared. */
  datatype Row = Row(id: string, time: string, host: string, tags: array<string>, paths: array<string>)

  function RowKey(r: Row): Key {
    Key(r.id, r.time, r.host)
  }

  ghost function ValueOf(r: Row): Value
    reads r.tags, r.paths
  {
    Value(r.id, r.time, r.host, r.tags[..], r.paths[..])
  }

  ghost function ValuesOf(rows: seq<Row>): seq<Value>
    reads set r | r in rows :: r.tags, set r | r in rows :: r.paths
  {
    seq(|rows|, i requires 0 <= i < |rows| reads set r | r in rows :: r.tags, set r | r in rows :: r.paths => ValueOf(rows[i]))
  }

  lemma {:induction false} InsertAt<T, K>(x: T, s: seq<T>, n: nat, key: T -> K, less: (K, K) -> bool)
    requires n <= |s| && forall k :: 0 <= k < n ==> less(key(s[k]), key(x))
    requires n < |s| ==> !less(key(s[n]), key(x))
    ensures Insert(x, s, key, less) == s[..n] + [x] + s[n..]
  {
    if n > 0 {
      InsertAt(x, s[1..], n - 1, key, less);
      assert s[..n] == [s[0]] + s[1..][..n - 1];
    } else {
      assert s[..0] + [x] + s[0..] == [x] + s;
    }
  }

  /** Element i of `before` has moved to j, past smaller ones. */
  ghost predicate Moved<T, K>(before: seq<T>, after: seq<T>, i: nat, j: nat, key: T -> K, less: (K, K) -> bool)
    requires i <= j < |before| == |after|
  {
    && (forall k :: 0 <= k < i || j < k < |before| ==> after[k] == before[k])
    && (forall k :: i <= k < j ==> after[k] == before[k + 1])
    && (forall k :: i < k <= j ==> less(key(before[k]), key(before[i])))
    && after[j] == before[i]
  }

  lemma MovedIsInserted<T, K>(before: seq<T>, after: seq<T>, i: nat, j: nat, key: T -> K, less: (K, K) -> bool)
    requires i <= j < |before| == |after| && Moved(before, after, i, j, key, less)
    requires j + 1 < |before| ==> !less(key(before[j + 1]), key(before[i]))
    ensures after[..i] == before[..i] && after[i..] == Insert(before[i], before[i + 1..], key, less)
  {
    var rest := before[i + 1..];
    InsertAt(before[i], rest, j - i, key, less) by {
      assert forall k :: 0 <= k < j - i ==> rest[k] == before[i + 1 + k];
    }
    assert after[i..] == rest[..j - i] + [before[i]] + rest[j - i..];
  }

  /** One insertion: a[i] moves right past the smaller elements of the sorted rest. */
  method InsertInPlace<T, K>(a: array<T>, i: nat, key: T -> K, less: (K, K) -> bool)
    requires i < a.Length
    modifies a
    ensures a[..i] == old(a[..i]) && a[i..] == Insert(old(a[i]), old(a[i + 1..]), key, less)
  {
    ghost var before := a[..];
    var x, j := a[i], i;
    while j + 1 < a.Length && less(key(a[j + 1]), key(x))
      invariant i <= j < a.Length
      invariant forall k :: 0 <= k < i || j < k < a.Length ==> a[k] == before[k]
      invariant forall k :: i <= k < j ==> a[k] == before[k + 1]
      invariant forall k :: i < k <= j ==> less(key(before[k]), key(x))
    {
      a[j] := a[j + 1];
      j := j + 1;
    }
    a[j] := x;
    MovedIsInserted(before, a[..], i, j, key, less);
  }

  /** sort.SliceStable; and sort.Strings, since equal strings cannot be told apart. */
  method SortInPlace<T, K>(a: array<T>, key: T -> K, less: (K, K) -> bool)
    modifies a
    ensures a[..] == StableSort(old(a[..]), key, less)
  {
    ghost var was := a[..];
    assert was[a.Length..] == [];
    for i := a.Length downto 0
      invariant a[..i] == was[..i] && a[i..] == StableSort(was[i..], key, less)
    {
      assert was[i..] == [was[i]] + was[i + 1..];
      assert a[i] == a[..i + 1][i] == was[i];
      assert a[..i] == a[..i + 1][..i] == was[..i];
      InsertInPlace(a, i, key, less);
    }
    assert a[0..] == a[..] && was[0..] == was;
  }

  method SortedCopy(a: array<string>) returns (b: array<string>)
    ensures fresh(b) && b[..] == SortStrings(a[..])
  {
    b := new string[a.Length](i requires 0 <= i < a.Length reads a => a[i]);
    assert b[..] == a[..];
    SortInPlace(b, Self, StringLess);
  }

  lemma {:induction false} InsertValues(x: Row, s: seq<Row>)
    ensures ValuesOf(Insert(x, s, RowKey, KeyLess)) == Insert(ValueOf(x), ValuesOf(s), KeyOf, KeyLess)
  {
    assert s != [] ==> ValuesOf(s)[0] == ValueOf(s[0]) && ValuesOf(s)[1..] == ValuesOf(s[1..]);
    if s != [] && KeyLess(RowKey(s[0]), RowKey(x)) {
      InsertValues(x, s[1..]);
      var rest := Insert(x, s[1..], RowKey, KeyLess);
      assert ValuesOf([s[0]] + rest) == [ValueOf(s[0])] + ValuesOf(rest);
    } else {
      assert ValuesOf([x] + s) == [ValueOf(x)] + ValuesOf(s);
    }
  }

  /** Sorting the rows sorts the values. */
  lemma {:induction false} SortValues(s: seq<Row>)
    ensures ValuesOf(StableSort(s, RowKey, KeyLess)) == StableSort(ValuesOf(s), KeyOf, KeyLess)
  {
    if s != [] {
      SortValues(s[1..]);
      assert ValuesOf(s)[0] == ValueOf(s[0]) && ValuesOf(s)[1..] == ValuesOf(s[1..]);
      InsertValues(s[0], StableSort(s[1..], RowKey, KeyLess));
    }
  }

  /** The copy of the list, with sorted copies of the tags and paths. */
  method InnerSorted(snaps: array<Row>) returns (normalized: array<Row>)
    ensures fresh(normalized) && ValuesOf(normalized[..]) == InnerAll(ValuesOf(snaps[..]))
  {
    var n := snaps.Length;
    normalized := new Row[n](i requires 0 <= i < n reads snaps => snaps[i]);
    for i := 0 to n
      invariant forall j :: i <= j < n ==> normalized[j] == snaps[j]
      invariant forall j :: 0 <= j < i ==> ValueOf(normalized[j]) == Inner(ValueOf(snaps[j]))
    {
      var tags := SortedCopy(normalized[i].tags);
      var paths := SortedCopy(normalized[i].paths);
      normalized[i] := normalized[i].(tags := tags, paths := paths);
    }
  }

  /** The list that is encoded and hashed: the normal form of the caller's list, which is left as it was
      together with its tags and paths. */
  method Normalized(snaps: array<Row>) returns (normalized: array<Row>)
    ensures fresh(normalized) && ValuesOf(normalized[..]) == NormalForm(old(ValuesOf(snaps[..])))
    ensures snaps[..] == old(snaps[..]) && ValuesOf(snaps[..]) == old(ValuesOf(snaps[..]))
  {
    ghost var was := ValuesOf(snaps[..]);
    normalized := InnerSorted(snaps);
    assert ValuesOf(snaps[..]) == was;
    ghost var rows := StableSort(normalized[..], RowKey, KeyLess);
    SortValues(normalized[..]);
    ghost var values := ValuesOf(rows);
    assert values == NormalForm(was);
    SortInPlace(normalized, RowKey, KeyLess);
    assert normalized[..] == rows;
    assert ValuesOf(rows) == values;
    assert ValuesOf(normalized[..]) == values;
  }
}
