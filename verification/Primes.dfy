/** The first 64 primes, which the constants of SHA-256 come from. */
module Primes {
  import Words

  /** The first 64 primes, in rows of eight. */
  function PrimeRow(r: nat): (s: seq<nat>)
    requires r < 8
    ensures |s| == 8
  {
    if r == 0 then [2, 3, 5, 7, 11, 13, 17, 19]
    else if r == 1 then [23, 29, 31, 37, 41, 43, 47, 53]
    else if r == 2 then [59, 61, 67, 71, 73, 79, 83, 89]
    else if r == 3 then [97, 101, 103, 107, 109, 113, 127, 131]
    else if r == 4 then [137, 139, 149, 151, 157, 163, 167, 173]
    else if r == 5 then [179, 181, 191, 193, 197, 199, 211, 223]
    else if r == 6 then [227, 229, 233, 239, 241, 251, 257, 263]
    else [269, 271, 277, 281, 283, 293, 307, 311]
  }

  function Prime(i: nat): nat
    requires i < 64
  {
    PrimeRow(i / 8)[i % 8]
  }

  ghost predicate IsPrime(n: nat) {
    n >= 2 && forall d :: 2 <= d < n ==> n % d != 0
  }

  /** Enough for the numbers below 18 * 18. */
  predicate Sifted(n: nat) {
    && n >= 2
    && (n % 2 != 0 || n == 2) && (n % 3 != 0 || n == 3) && (n % 5 != 0 || n == 5) && (n % 7 != 0 || n == 7)
    && (n % 11 != 0 || n == 11) && (n % 13 != 0 || n == 13) && (n % 17 != 0 || n == 17)
  }

  lemma SmallDivisor(n: nat, d: nat, e: nat)
    requires 2 <= d < 18 && e >= 2 && n == d * e
    ensures !Sifted(n)
  {
    if d % 2 == 0 {
      Divides(n, 2, d / 2 * e) by { assert d == 2 * (d / 2); }
    } else if d % 3 == 0 {
      Divides(n, 3, d / 3 * e) by { assert d == 3 * (d / 3); }
    } else if d % 5 == 0 {
      Divides(n, 5, d / 5 * e) by { assert d == 5 * (d / 5); }
    } else {
      assert d == 7 || d == 11 || d == 13 || d == 17;
      Divides(n, d, e);
    }
  }

  lemma Divides(n: nat, d: nat, e: nat)
    requires d > 0 && n == d * e
    ensures n % d == 0
  {
    Words.ModOfSum(e, d, 0);
  }

  lemma PrimeIsKept(n: nat, d: nat)
    requires IsPrime(n) && d >= 2
    ensures n % d != 0 || n == d
  {
    if d > n {
      Words.ModOfSum(0, d, n);
    }
  }

  lemma CompositeIsNotSifted(n: nat, d: nat)
    requires n < 18 * 18 && 2 <= d < n && n % d == 0
    ensures !Sifted(n)
  {
    var e := n / d;
    assert n == d * e;
    assert e >= 2;
    if d < 18 {
      SmallDivisor(n, d, e);
    } else {
      assert d * e >= 18 * e;
      SmallDivisor(n, e, d);
    }
  }

  lemma SiftedIsPrime(n: nat)
    requires n < 18 * 18
    ensures IsPrime(n) <==> Sifted(n)
  {
    if IsPrime(n) {
      PrimeIsKept(n, 2);
      PrimeIsKept(n, 3);
      PrimeIsKept(n, 5);
      PrimeIsKept(n, 7);
      PrimeIsKept(n, 11);
      PrimeIsKept(n, 13);
      PrimeIsKept(n, 17);
    } else if n >= 2 {
      var d :| 2 <= d < n && n % d == 0;
      CompositeIsNotSifted(n, d);
    }
  }

  /** q is the next number after p that the sieve keeps. */
  ghost predicate Follows(p: nat, q: nat) {
    p < q && Sifted(q) && forall n :: p < n < q ==> !Sifted(n)
  }

  predicate NoneSifted(lo: nat, hi: nat)
    decreases hi - lo
  {
    lo >= hi || (!Sifted(lo) && NoneSifted(lo + 1, hi))
  }

  lemma {:induction false} GapFollows(p: nat, lo: nat, q: nat)
    requires p < lo <= q && NoneSifted(lo, q) && Sifted(q)
    requires forall n :: p < n < lo ==> !Sifted(n)
    ensures Follows(p, q)
    decreases q - lo
  {
    if lo < q {
      GapFollows(p, lo + 1, q);
    }
  }

  lemma Follow0(i: nat)
    requires 0 <= i < 4
    ensures Follows(Prime(i), Prime(i + 1))
  {
    if
    case i == 0 => GapFollows(2, 3, 3);
    case i == 1 => GapFollows(3, 4, 5);
    case i == 2 => GapFollows(5, 6, 7);
    case i == 3 => GapFollows(7, 8, 11);
  }

  lemma Follow1(i: nat)
    requires 4 <= i < 8
    ensures Follows(Prime(i), Prime(i + 1))
  {
    if
    case i == 4 => GapFollows(11, 12, 13);
    case i == 5 => GapFollows(13, 14, 17);
    case i == 6 => GapFollows(17, 18, 19);
    case i == 7 => GapFollows(19, 20, 23);
  }

  lemma Follow2(i: nat)
    requires 8 <= i < 12
    ensures Follows(Prime(i), Prime(i + 1))
  {
    if
    case i == 8 => GapFollows(23, 24, 29);
    case i == 9 => GapFollows(29, 30, 31);
    case i == 10 => GapFollows(31, 32, 37);
    case i == 11 => GapFollows(37, 38, 41);
  }

  lemma Follow3(i: nat)
    requires 12 <= i < 16
    ensures Follows(Prime(i), Prime(i + 1))
  {
    if
    case i == 12 => GapFollows(41, 42, 43);
    case i == 13 => GapFollows(43, 44, 47);
    case i == 14 => GapFollows(47, 48, 53);
    case i == 15 => GapFollows(53, 54, 59);
  }

  lemma Follow4(i: nat)
    requires 16 <= i < 20
    ensures Follows(Prime(i), Prime(i + 1))
  {
    if
    case i == 16 => GapFollows(59, 60, 61);
    case i == 17 => GapFollows(61, 62, 67);
    case i == 18 => GapFollows(67, 68, 71);
    case i == 19 => GapFollows(71, 72, 73);
  }

  lemma Follow5(i: nat)
    requires 20 <= i < 24
    ensures Follows(Prime(i), Prime(i + 1))
  {
    if
    case i == 20 => GapFollows(73, 74, 79);
    case i == 21 => GapFollows(79, 80, 83);
    case i == 22 => GapFollows(83, 84, 89);
    case i == 23 => GapFollows(89, 90, 97);
  }

  lemma Follow6(i: nat)
    requires 24 <= i < 28
    ensures Follows(Prime(i), Prime(i + 1))
  {
    if
    case i == 24 => GapFollows(97, 98, 101);
    case i == 25 => GapFollows(101, 102, 103);
    case i == 26 => GapFollows(103, 104, 107);
    case i == 27 => GapFollows(107, 108, 109);
  }

  lemma Follow7(i: nat)
    requires 28 <= i < 32
    ensures Follows(Prime(i), Prime(i + 1))
  {
    if
    case i == 28 => GapFollows(109, 110, 113);
    case i == 29 => GapFollows(113, 114, 127);
    case i == 30 => GapFollows(127, 128, 131);
    case i == 31 => GapFollows(131, 132, 137);
  }

  lemma Follow8(i: nat)
    requires 32 <= i < 36
    ensures Follows(Prime(i), Prime(i + 1))
  {
    if
    case i == 32 => GapFollows(137, 138, 139);
    case i == 33 => GapFollows(139, 140, 149);
    case i == 34 => GapFollows(149, 150, 151);
    case i == 35 => GapFollows(151, 152, 157);
  }

  lemma Follow9(i: nat)
    requires 36 <= i < 40
    ensures Follows(Prime(i), Prime(i + 1))
  {
    if
    case i == 36 => GapFollows(157, 158, 163);
    case i == 37 => GapFollows(163, 164, 167);
    case i == 38 => GapFollows(167, 168, 173);
    case i == 39 => GapFollows(173, 174, 179);
  }

  lemma Follow10(i: nat)
    requires 40 <= i < 44
    ensures Follows(Prime(i), Prime(i + 1))
  {
    if
    case i == 40 => GapFollows(179, 180, 181);
    case i == 41 => GapFollows(181, 182, 191);
    case i == 42 => GapFollows(191, 192, 193);
    case i == 43 => GapFollows(193, 194, 197);
  }

  lemma Follow11(i: nat)
    requires 44 <= i < 48
    ensures Follows(Prime(i), Prime(i + 1))
  {
    if
    case i == 44 => GapFollows(197, 198, 199);
    case i == 45 => GapFollows(199, 200, 211);
    case i == 46 => GapFollows(211, 212, 223);
    case i == 47 => GapFollows(223, 224, 227);
  }

  lemma Follow12(i: nat)
    requires 48 <= i < 52
    ensures Follows(Prime(i), Prime(i + 1))
  {
    if
    case i == 48 => GapFollows(227, 228, 229);
    case i == 49 => GapFollows(229, 230, 233);
    case i == 50 => GapFollows(233, 234, 239);
    case i == 51 => GapFollows(239, 240, 241);
  }

  lemma Follow13(i: nat)
    requires 52 <= i < 56
    ensures Follows(Prime(i), Prime(i + 1))
  {
    if
    case i == 52 => GapFollows(241, 242, 251);
    case i == 53 => GapFollows(251, 252, 257);
    case i == 54 => GapFollows(257, 258, 263);
    case i == 55 => GapFollows(263, 264, 269);
  }

  lemma Follow14(i: nat)
    requires 56 <= i < 60
    ensures Follows(Prime(i), Prime(i + 1))
  {
    if
    case i == 56 => GapFollows(269, 270, 271);
    case i == 57 => GapFollows(271, 272, 277);
    case i == 58 => GapFollows(277, 278, 281);
    case i == 59 => GapFollows(281, 282, 283);
  }

  lemma Follow15(i: nat)
    requires 60 <= i < 63
    ensures Follows(Prime(i), Prime(i + 1))
  {
    if
    case i == 60 => GapFollows(283, 284, 293);
    case i == 61 => GapFollows(293, 294, 307);
    case i == 62 => GapFollows(307, 308, 311);
  }

  lemma NextPrime(i: nat)
    requires i < 63
    ensures Follows(Prime(i), Prime(i + 1))
  {
    if
    case 0 <= i < 4 => Follow0(i);
    case 4 <= i < 8 => Follow1(i);
    case 8 <= i < 12 => Follow2(i);
    case 12 <= i < 16 => Follow3(i);
    case 16 <= i < 20 => Follow4(i);
    case 20 <= i < 24 => Follow5(i);
    case 24 <= i < 28 => Follow6(i);
    case 28 <= i < 32 => Follow7(i);
    case 32 <= i < 36 => Follow8(i);
    case 36 <= i < 40 => Follow9(i);
    case 40 <= i < 44 => Follow10(i);
    case 44 <= i < 48 => Follow11(i);
    case 48 <= i < 52 => Follow12(i);
    case 52 <= i < 56 => Follow13(i);
    case 56 <= i < 60 => Follow14(i);
    case 60 <= i < 64 => Follow15(i);
  }

  lemma {:induction false} ListedUpTo(p: seq<nat>, i: nat, n: nat)
    requires i < |p| && p[0] == 2 && forall k :: 0 < k <= i ==> Follows(p[k - 1], p[k])
    requires n <= p[i]
    ensures Sifted(n) <==> n in p[..i + 1]
    ensures forall j :: 0 <= j < i ==> p[j] < p[i]
  {
    if i > 0 {
      assert Follows(p[i - 1], p[i]);
      assert p[..i + 1] == p[..i] + [p[i]];
      ListedUpTo(p, i - 1, if n <= p[i - 1] then n else p[i - 1]);
      if p[i - 1] < n {
        assert forall j :: 0 <= j < i ==> p[j] != n;
      }
    }
  }

  function First64(): seq<nat> {
    seq(64, i requires 0 <= i < 64 => Prime(i))
  }

  /** The list holds the first 64 primes, in order: exactly the primes up to its last element. */
  lemma FirstPrimes(n: nat)
    ensures n <= First64()[63] ==> (n in First64() <==> IsPrime(n))
    ensures forall i, j :: 0 <= i < j < 64 ==> First64()[i] < First64()[j]
  {
    var p := First64();
    assert p[0] == 2 && p[63] == 311;
    forall k | 0 < k < 64
      ensures Follows(p[k - 1], p[k])
    {
      NextPrime(k - 1);
    }
    forall i, j | 0 <= i < j < 64
      ensures p[i] < p[j]
    {
      ListedUpTo(p, j, 0);
    }
    if n <= 311 {
      ListedUpTo(p, 63, n);
      assert p[..64] == p;
      SiftedIsPrime(n);
    }
  }
}
