/** 32-bit words: the operations of FIPS 180-4 sections 2.2.2 and 3.2, and JavaScript's operators on numbers,
    which work on signed 32-bit values. Numbers are integers; `Exact` says where a JavaScript number is one. */
module Words {

  const Modulus: int := 0x1_0000_0000

  type Word = x: int | 0 <= x < Modulus

  type Byte = x: int | 0 <= x < 256

  // ----- words bit by bit ----------------------------------------------------------------

  predicate Bit(x: nat, i: nat) {
    if i == 0 then x % 2 == 1 else Bit(x / 2, i - 1)
  }

  function Pow2(n: nat): (r: nat)
    ensures r >= 1
  {
    if n == 0 then 1 else 2 * Pow2(n - 1)
  }

  /** The number of n bits whose bits f makes from those of x and y. */
  function Bitwise(f: (bool, bool) -> bool, x: nat, y: nat, n: nat): nat
    decreases n, x
  {
    if n == 0 then 0 else (if f(x % 2 == 1, y % 2 == 1) then 1 else 0) + 2 * Bitwise(f, x / 2, y / 2, n - 1)
  }

  lemma {:induction false} BitwiseBound(f: (bool, bool) -> bool, x: nat, y: nat, n: nat)
    ensures Bitwise(f, x, y, n) < Pow2(n)
  {
    if n > 0 {
      BitwiseBound(f, x / 2, y / 2, n - 1);
    }
  }

  lemma {:induction false} BitwiseBit(f: (bool, bool) -> bool, x: nat, y: nat, n: nat, i: nat)
    requires i < n
    ensures Bit(Bitwise(f, x, y, n), i) == f(Bit(x, i), Bit(y, i))
  {
    if i > 0 {
      BitwiseBit(f, x / 2, y / 2, n - 1, i - 1);
    }
  }

  lemma Pow32()
    ensures Pow2(32) == Modulus
  {
    assert Pow2(8) == 256;
    assert Pow2(16) == 256 * Pow2(8) by {
      assert Pow2(12) == 16 * Pow2(8) && Pow2(16) == 16 * Pow2(12);
    }
    assert Pow2(20) == 16 * Pow2(16) && Pow2(24) == 16 * Pow2(20) && Pow2(28) == 16 * Pow2(24) && Pow2(32) == 16 * Pow2(28);
  }

  function WordOp(f: (bool, bool) -> bool, x: Word, y: Word): Word {
    Pow32();
    BitwiseBound(f, x, y, 32);
    Bitwise(f, x, y, 32)
  }

  function AndW(x: Word, y: Word): Word {
    WordOp((a, b) => a && b, x, y)
  }

  function OrW(x: Word, y: Word): Word {
    WordOp((a, b) => a || b, x, y)
  }

  function XorW(x: Word, y: Word): Word {
    WordOp((a, b) => a != b, x, y)
  }

  function NotW(x: Word): Word {
    Modulus - 1 - x
  }

  function ShrW(x: Word, n: nat): Word
    decreases n, x
  {
    if n == 0 then x else ShrW(x / 2, n - 1)
  }

  function ShlW(x: Word, n: nat): Word
    decreases n, x
  {
    if n == 0 then x else ShlW(2 * x % Modulus, n - 1)
  }

  function Add(x: Word, y: Word): Word {
    (x + y) % Modulus
  }

  /** FIPS 180-4 section 3.2: the circular right shift. */
  function ROTR(n: nat, x: Word): Word
    requires n < 32
  {
    OrW(ShrW(x, n), ShlW(x, 32 - n))
  }

  // ----- what the operations mean, bit by bit ---------------------------------------------

  lemma HalfOfMod(x: nat, p: nat)
    requires p >= 1
    ensures x % (2 * p) / 2 == x / 2 % p && x % (2 * p) % 2 == x % 2
  {
    var q, r := x / (2 * p), x % (2 * p);
    assert x == 2 * (q * p) + r;
    assert x / 2 == q * p + r / 2;
    assert 0 <= r / 2 < p;
    ModOfSum(q, p, r / 2);
  }

  lemma ModOfSum(q: nat, p: nat, r: nat)
    requires r < p
    ensures (q * p + r) % p == r
  {
    var m := q * p + r;
    var d := m / p - q;
    assert m == m / p * p + m % p;
    assert d * p == m / p * p - q * p;
    assert d * p == r - m % p;
    assert d >= 1 ==> d * p >= p;
    assert d <= -1 ==> d * p + p <= 0;
  }

  lemma {:induction false} ModBit(x: nat, k: nat, i: nat)
    requires i < k
    ensures Bit(x % Pow2(k), i) == Bit(x, i)
  {
    HalfOfMod(x, Pow2(k - 1));
    if i > 0 {
      ModBit(x / 2, k - 1, i - 1);
    }
  }

  lemma {:induction false} HighBit(x: nat, n: nat, i: nat)
    requires x < Pow2(n) && n <= i
    ensures !Bit(x, i)
  {
    if n > 0 {
      HighBit(x / 2, n - 1, i - 1);
    } else if i > 0 {
      HighBit(x / 2, 0, i - 1);
    }
  }

  lemma DoubleBit(x: Word, i: nat)
    requires i < 32
    ensures Bit(2 * x % Modulus, i) == (i > 0 && Bit(x, i - 1))
  {
    Pow32();
    ModBit(2 * x, 32, i);
    if i > 0 {
      assert 2 * x / 2 == x;
    }
  }

  lemma {:induction false} ShlBit(x: Word, n: nat, i: nat)
    requires i < 32
    ensures Bit(ShlW(x, n), i) == (i >= n && Bit(x, i - n))
    decreases n
  {
    if n > 0 {
      ShlBit(2 * x % Modulus, n - 1, i);
      if i >= n - 1 {
        DoubleBit(x, i - (n - 1));
      }
    }
  }

  lemma {:induction false} ShrBit(x: Word, n: nat, i: nat)
    ensures Bit(ShrW(x, n), i) == Bit(x, i + n)
  {
    if n > 0 {
      ShrBit(x / 2, n - 1, i);
    }
  }

  /** The shifts and the disjunction together rotate. */
  lemma RotrBit(x: Word, n: nat, i: nat)
    requires n < 32 && i < 32
    ensures Bit(ROTR(n, x), i) == Bit(x, (i + n) % 32)
  {
    var low, high := ShrW(x, n), ShlW(x, 32 - n);
    ShrBit(x, n, i);
    ShlBit(x, 32 - n, i);
    assert Bit(ROTR(n, x), i) == (Bit(low, i) || Bit(high, i)) by {
      BitwiseBit((a, b) => a || b, low, high, 32, i);
    }
    if i + n < 32 {
      assert (i + n) % 32 == i + n;
    } else {
      Pow32();
      HighBit(x, 32, i + n);
      assert (i + n) % 32 == i + n - 32;
    }
  }

  lemma {:induction false} ComplementBit(x: nat, n: nat, i: nat)
    requires x < Pow2(n) && i < n
    ensures Bit(Pow2(n) - 1 - x, i) == !Bit(x, i)
  {
    if i > 0 {
      assert (Pow2(n) - 1 - x) / 2 == Pow2(n - 1) - 1 - x / 2;
      ComplementBit(x / 2, n - 1, i - 1);
    }
  }

  lemma NotBit(x: Word, i: nat)
    requires i < 32
    ensures Bit(NotW(x), i) == !Bit(x, i)
  {
    Pow32();
    ComplementBit(x, 32, i);
  }

  lemma AndBit(x: Word, y: Word, i: nat)
    requires i < 32
    ensures Bit(AndW(x, y), i) == (Bit(x, i) && Bit(y, i))
  {
    BitwiseBit((a, b) => a && b, x, y, 32, i);
  }

  lemma XorBit(x: Word, y: Word, i: nat)
    requires i < 32
    ensures Bit(XorW(x, y), i) == (Bit(x, i) != Bit(y, i))
  {
    BitwiseBit((a, b) => a != b, x, y, 32, i);
  }

  // ----- JavaScript's operators ----------------------------------------------------------

  predicate Exact(x: int) {
    -0x20_0000_0000_0000 <= x <= 0x20_0000_0000_0000
  }

  function ToUint32(x: int): Word {
    x % Modulus
  }

  function ToInt32(x: int): (r: int)
    ensures -0x8000_0000 <= r < 0x8000_0000
  {
    if ToUint32(x) < 0x8000_0000 then ToUint32(x) else ToUint32(x) - Modulus
  }

  function JsAnd(x: int, y: int): int {
    ToInt32(AndW(ToUint32(x), ToUint32(y)))
  }

  function JsOr(x: int, y: int): int {
    ToInt32(OrW(ToUint32(x), ToUint32(y)))
  }

  function JsXor(x: int, y: int): int {
    ToInt32(XorW(ToUint32(x), ToUint32(y)))
  }

  function JsNot(x: int): int {
    ToInt32(NotW(ToUint32(x)))
  }

  /** x << n; JavaScript takes larger counts modulo 32. */
  function JsShl(x: int, n: int): int
    requires 0 <= n < 32
  {
    ToInt32(ShlW(ToUint32(x), n))
  }

  /** x >>> n */
  function JsShr(x: int, n: int): Word
    requires 0 <= n < 32
  {
    ShrW(ToUint32(x), n)
  }

  lemma SignedRoundTrip(x: int)
    ensures ToUint32(ToInt32(x)) == ToUint32(x)
  {
  }
}
