/** SHA-256: the standard (FIPS 180-4) as functions, and the browser's fallback (web/src/lib/sha256.ts) as
    loops over arrays of JavaScript numbers. */
module Sha256 {
  import opened Words
  import opened Primes

  // ----- FIPS 180-4 ----------------------------------------------------------------------

  /** Section 4.1.2. */
  function Ch(x: Word, y: Word, z: Word): Word {
    XorW(AndW(x, y), AndW(NotW(x), z))
  }

  function Maj(x: Word, y: Word, z: Word): Word {
    XorW(XorW(AndW(x, y), AndW(x, z)), AndW(y, z))
  }

  function BigSigma0(x: Word): Word {
    XorW(XorW(ROTR(2, x), ROTR(13, x)), ROTR(22, x))
  }

  function BigSigma1(x: Word): Word {
    XorW(XorW(ROTR(6, x), ROTR(11, x)), ROTR(25, x))
  }

  function SmallSigma0(x: Word): Word {
    XorW(XorW(ROTR(7, x), ROTR(18, x)), ShrW(x, 3))
  }

  function SmallSigma1(x: Word): Word {
    XorW(XorW(ROTR(17, x), ROTR(19, x)), ShrW(x, 10))
  }

  /** Section 4.2.2, in rows of eight. */
  function KRow(r: nat): (s: seq<Word>)
    requires r < 8
    ensures |s| == 8
  {
    if r == 0 then [0x428a2f98, 0x71374491, 0xb5c0fbcf, 0xe9b5dba5, 0x3956c25b, 0x59f111f1, 0x923f82a4, 0xab1c5ed5]
    else if r == 1 then [0xd807aa98, 0x12835b01, 0x243185be, 0x550c7dc3, 0x72be5d74, 0x80deb1fe, 0x9bdc06a7, 0xc19bf174]
    else if r == 2 then [0xe49b69c1, 0xefbe4786, 0x0fc19dc6, 0x240ca1cc, 0x2de92c6f, 0x4a7484aa, 0x5cb0a9dc, 0x76f988da]
    else if r == 3 then [0x983e5152, 0xa831c66d, 0xb00327c8, 0xbf597fc7, 0xc6e00bf3, 0xd5a79147, 0x06ca6351, 0x14292967]
    else if r == 4 then [0x27b70a85, 0x2e1b2138, 0x4d2c6dfc, 0x53380d13, 0x650a7354, 0x766a0abb, 0x81c2c92e, 0x92722c85]
    else if r == 5 then [0xa2bfe8a1, 0xa81a664b, 0xc24b8b70, 0xc76c51a3, 0xd192e819, 0xd6990624, 0xf40e3585, 0x106aa070]
    else if r == 6 then [0x19a4c116, 0x1e376c08, 0x2748774c, 0x34b0bcb5, 0x391c0cb3, 0x4ed8aa4a, 0x5b9cca4f, 0x682e6ff3]
    else [0x748f82ee, 0x78a5636f, 0x84c87814, 0x8cc70208, 0x90befffa, 0xa4506ceb, 0xbef9a3f7, 0xc67178f2]
  }

  function K(i: nat): Word
    requires i < 64
  {
    KRow(i / 8)[i % 8]
  }

  /** Section 5.3.3. */
  const Initial: seq<Word> := [
    0x6a09e667, 0xbb67ae85, 0x3c6ef372, 0xa54ff53a, 0x510e527f, 0x9b05688c, 0x1f83d9ab, 0x5be0cd19]

  /** Each bit of x chooses between those of y and z. */
  lemma ChBit(x: Word, y: Word, z: Word, i: nat)
    requires i < 32
    ensures Bit(Ch(x, y, z), i) == if Bit(x, i) then Bit(y, i) else Bit(z, i)
  {
    NotBit(x, i);
    AndBit(x, y, i);
    AndBit(NotW(x), z, i);
    XorBit(AndW(x, y), AndW(NotW(x), z), i);
  }

  /** Each bit is the one that at least two of the words have. */
  lemma MajBit(x: Word, y: Word, z: Word, i: nat)
    requires i < 32
    ensures Bit(Maj(x, y, z), i) == if Bit(x, i) == Bit(y, i) then Bit(x, i) else Bit(z, i)
  {
    AndBit(x, y, i);
    AndBit(x, z, i);
    AndBit(y, z, i);
    XorBit(AndW(x, y), AndW(x, z), i);
    XorBit(XorW(AndW(x, y), AndW(x, z)), AndW(y, z), i);
  }

  // ----- the constants -------------------------------------------------------------------

  /** r has the first 32 bits of the fractional part of the cube root of p. */
  predicate CubeRootBits(p: nat, r: Word) {
    var n := (if p < 8 then 1 else if p < 27 then 2 else if p < 64 then 3 else if p < 125 then 4 else if p < 216 then 5 else 6) * Modulus + r;
    n * n * n <= p * Modulus * Modulus * Modulus < (n + 1) * (n + 1) * (n + 1)
  }

  /** r has the first 32 bits of the fractional part of the square root of p. */
  predicate SquareRootBits(p: nat, r: Word) {
    var n := (if p < 4 then 1 else if p < 9 then 2 else if p < 16 then 3 else 4) * Modulus + r;
    n * n <= p * Modulus * Modulus < (n + 1) * (n + 1)
  }

  predicate CubeRow(p: seq<nat>, r: seq<Word>)
    requires |p| == |r| == 8
  {
    && CubeRootBits(p[0], r[0]) && CubeRootBits(p[1], r[1]) && CubeRootBits(p[2], r[2]) && CubeRootBits(p[3], r[3])
    && CubeRootBits(p[4], r[4]) && CubeRootBits(p[5], r[5]) && CubeRootBits(p[6], r[6]) && CubeRootBits(p[7], r[7])
  }

  lemma CubeRowsLow(r: nat)
    requires r < 3
    ensures CubeRow(PrimeRow(r), KRow(r))
  {
    if
    case r == 0 => assert CubeRow(PrimeRow(0), KRow(0));
    case r == 1 => assert CubeRow(PrimeRow(1), KRow(1));
    case r == 2 => assert CubeRow(PrimeRow(2), KRow(2));
  }

  lemma CubeRowsMiddle(r: nat)
    requires 3 <= r < 6
    ensures CubeRow(PrimeRow(r), KRow(r))
  {
    if
    case r == 3 => assert CubeRow(PrimeRow(3), KRow(3));
    case r == 4 => assert CubeRow(PrimeRow(4), KRow(4));
    case r == 5 => assert CubeRow(PrimeRow(5), KRow(5));
  }

  lemma CubeRowsHigh(r: nat)
    requires 6 <= r < 8
    ensures CubeRow(PrimeRow(r), KRow(r))
  {
    if
    case r == 6 => assert CubeRow(PrimeRow(6), KRow(6));
    case r == 7 => assert CubeRow(PrimeRow(7), KRow(7));
  }

  /** The table of section 4.2.2 holds the cube roots of the primes it is said to hold. */
  lemma CubeRoots(i: nat)
    requires i < 64
    ensures CubeRootBits(Prime(i), K(i))
  {
    var r := i / 8;
    if r < 3 {
      CubeRowsLow(r);
    } else if r < 6 {
      CubeRowsMiddle(r);
    } else {
      CubeRowsHigh(r);
    }
    RowEntry(PrimeRow(r), KRow(r), i % 8);
  }

  lemma RowEntry(p: seq<nat>, r: seq<Word>, c: nat)
    requires |p| == |r| == 8 && CubeRow(p, r) && c < 8
    ensures CubeRootBits(p[c], r[c])
  {
  }

  /** The initial hash value of section 5.3.3 holds the square roots of the first eight primes. */
  lemma SquareRoots(i: nat)
    requires i < 8
    ensures SquareRootBits(PrimeRow(0)[i], Initial[i])
  {
    assert SquareRootBits(2, 0x6a09e667) && SquareRootBits(3, 0xbb67ae85) && SquareRootBits(5, 0x3c6ef372) && SquareRootBits(7, 0xa54ff53a);
    assert SquareRootBits(11, 0x510e527f) && SquareRootBits(13, 0x9b05688c) && SquareRootBits(17, 0x1f83d9ab) && SquareRootBits(19, 0x5be0cd19);
  }

  // ----- FIPS 180-4, continued: padding, blocks, digest ------------------------------------

  /** The n bytes of v, most significant first. */
  function BigEndian(v: nat, n: nat): (r: seq<Byte>)
    ensures |r| == n
    decreases n
  {
    if n == 0 then [] else BigEndian(v / 256, n - 1) + [v % 256]
  }

  /** Section 5.1.1, for a message of whole bytes: the number of zero bytes after the byte 0x80. */
  function ZeroBytes(len: nat): nat {
    (55 - len) % 64
  }

  function Padded(m: seq<Byte>): seq<Byte> {
    m + [0x80] + seq(ZeroBytes(|m|), _ => 0) + BigEndian(8 * |m|, 8)
  }

  lemma ZerosFit(len: nat)
    ensures (len + 9 + ZeroBytes(len)) % 64 == 0
  {
    var q := (55 - len) / 64;
    assert len + 9 + ZeroBytes(len) == 64 * (1 - q);
  }

  /** The padding is the shortest that makes the length a multiple of 64. */
  lemma PaddingIsShortest(m: seq<Byte>, zeros: nat)
    ensures |Padded(m)| % 64 == 0
    ensures zeros < ZeroBytes(|m|) ==> (|m| + 9 + zeros) % 64 != 0
  {
    ZerosFit(|m|);
    if zeros < ZeroBytes(|m|) {
      var k := (|m| + 9 + ZeroBytes(|m|)) / 64;
      ModOfSum(k - 1, 64, 64 - (ZeroBytes(|m|) - zeros));
    }
  }

  function FourBytes(a: int, b: int, c: int, d: int): int {
    0x100_0000 * a + 0x1_0000 * b + 0x100 * c + d
  }

  function WordAt(m: seq<Byte>, i: nat): Word
    requires i + 4 <= |m|
  {
    FourBytes(m[i], m[i + 1], m[i + 2], m[i + 3])
  }

  /** Section 6.2.2, step 1: the message schedule of the block at off. */
  function W(m: seq<Byte>, off: nat, t: nat): Word
    requires off + 64 <= |m|
    decreases t, off
  {
    if t < 16 then WordAt(m, off + 4 * t)
    else Add(Add(Add(SmallSigma1(W(m, off, t - 2)), W(m, off, t - 7)), SmallSigma0(W(m, off, t - 15))), W(m, off, t - 16))
  }

  datatype Vars = Vars(a: Word, b: Word, c: Word, d: Word, e: Word, f: Word, g: Word, h: Word)

  /** Step 3. */
  function Round(v: Vars, k: Word, w: Word): Vars {
    var t1 := Add(Add(Add(Add(v.h, BigSigma1(v.e)), Ch(v.e, v.f, v.g)), k), w);
    var t2 := Add(BigSigma0(v.a), Maj(v.a, v.b, v.c));
    Vars(Add(t1, t2), v.a, v.b, v.c, Add(v.d, t1), v.e, v.f, v.g)
  }

  function Rounds(v: Vars, m: seq<Byte>, off: nat, t: nat): Vars
    requires off + 64 <= |m| && t <= 64
    decreases t, off
  {
    if t == 0 then v else Round(Rounds(v, m, off, t - 1), K(t - 1), W(m, off, t - 1))
  }

  /** Step 4. */
  function AddVars(u: Vars, v: Vars): Vars {
    Vars(Add(u.a, v.a), Add(u.b, v.b), Add(u.c, v.c), Add(u.d, v.d), Add(u.e, v.e), Add(u.f, v.f), Add(u.g, v.g), Add(u.h, v.h))
  }

  function VarsOf(s: seq<Word>): Vars
    requires |s| == 8
  {
    Vars(s[0], s[1], s[2], s[3], s[4], s[5], s[6], s[7])
  }

  /** The hash value after the first n blocks. */
  function HashOf(m: seq<Byte>, n: nat): Vars
    requires 64 * n <= |m|
    decreases n
  {
    if n == 0 then VarsOf(Initial)
    else
      var before := HashOf(m, n - 1);
      AddVars(before, Rounds(before, m, 64 * (n - 1), 64))
  }

  function WordsBytes(s: seq<Word>): (r: seq<Byte>)
    ensures |r| == 4 * |s|
  {
    if s == [] then [] else WordsBytes(s[..|s| - 1]) + BigEndian(s[|s| - 1], 4)
  }

  function VarsBytes(v: Vars): (r: seq<Byte>)
    ensures |r| == 32
  {
    WordsBytes([v.a, v.b, v.c, v.d, v.e, v.f, v.g, v.h])
  }

  function Digest(m: seq<Byte>): (r: seq<Byte>)
    ensures |r| == 32
  {
    VarsBytes(HashOf(Padded(m), |Padded(m)| / 64))
  }

  // ----- the expressions of the program are those of the standard -------------------------

  function Rotr(x: int, n: int): int
    requires 0 < n < 32
  {
    JsOr(JsShr(x, n), JsShl(x, 32 - n))
  }

  lemma OrIsOr(x: int, y: int)
    ensures ToUint32(JsOr(x, y)) == OrW(ToUint32(x), ToUint32(y))
  {
    SignedRoundTrip(OrW(ToUint32(x), ToUint32(y)));
  }

  lemma XorIsXor(x: int, y: int)
    ensures ToUint32(JsXor(x, y)) == XorW(ToUint32(x), ToUint32(y))
  {
    SignedRoundTrip(XorW(ToUint32(x), ToUint32(y)));
  }

  lemma AndIsAnd(x: int, y: int)
    ensures ToUint32(JsAnd(x, y)) == AndW(ToUint32(x), ToUint32(y))
  {
    SignedRoundTrip(AndW(ToUint32(x), ToUint32(y)));
  }

  lemma NotIsNot(x: int)
    ensures ToUint32(JsNot(x)) == NotW(ToUint32(x))
  {
    SignedRoundTrip(NotW(ToUint32(x)));
  }

  lemma ShlIsShl(x: int, n: int)
    requires 0 <= n < 32
    ensures ToUint32(JsShl(x, n)) == ShlW(ToUint32(x), n)
  {
    SignedRoundTrip(ShlW(ToUint32(x), n));
  }

  lemma WordIsItself(x: Word)
    ensures ToUint32(x) == x
  {
  }

  /** Although rotr works on signed values, as a word its result is the rotation. */
  lemma RotrIsROTR(x: int, n: nat)
    requires 0 < n < 32
    ensures ToUint32(Rotr(x, n)) == ROTR(n, ToUint32(x))
  {
    WordIsItself(JsShr(x, n));
    ShlIsShl(x, 32 - n);
    OrIsOr(JsShr(x, n), JsShl(x, 32 - n));
  }

  lemma Xor3(a: int, b: int, c: int)
    ensures ToUint32(JsXor(JsXor(a, b), c)) == XorW(XorW(ToUint32(a), ToUint32(b)), ToUint32(c))
  {
    XorIsXor(a, b);
    XorIsXor(JsXor(a, b), c);
  }

  lemma RotationsXor(x: Word, p: nat, q: nat, c: int)
    requires 0 < p < 32 && 0 < q < 32
    ensures ToUint32(JsXor(JsXor(Rotr(x, p), Rotr(x, q)), c)) == XorW(XorW(ROTR(p, x), ROTR(q, x)), ToUint32(c))
  {
    WordIsItself(x);
    RotrIsROTR(x, p);
    RotrIsROTR(x, q);
    Xor3(Rotr(x, p), Rotr(x, q), c);
  }

  lemma ChIsCh(e: Word, f: Word, g: Word)
    ensures ToUint32(JsXor(JsAnd(e, f), JsAnd(JsNot(e), g))) == Ch(e, f, g)
  {
    WordIsItself(e);
    WordIsItself(f);
    WordIsItself(g);
    NotIsNot(e);
    AndIsAnd(e, f);
    AndIsAnd(JsNot(e), g);
    XorIsXor(JsAnd(e, f), JsAnd(JsNot(e), g));
  }

  lemma MajIsMaj(a: Word, b: Word, c: Word)
    ensures ToUint32(JsXor(JsXor(JsAnd(a, b), JsAnd(a, c)), JsAnd(b, c))) == Maj(a, b, c)
  {
    WordIsItself(a);
    WordIsItself(b);
    WordIsItself(c);
    AndIsAnd(a, b);
    AndIsAnd(a, c);
    AndIsAnd(b, c);
    Xor3(JsAnd(a, b), JsAnd(a, c), JsAnd(b, c));
  }

  /** Reducing a sum once is adding modulo 2^32 step by step. */
  lemma SumIsAdd(x: int, y: int)
    ensures ToUint32(x + y) == Add(ToUint32(x), ToUint32(y))
  {
  }

  lemma NextWord(w16: Word, w15: Word, w7: Word, w2: Word)
    ensures var s0 := JsXor(JsXor(Rotr(w15, 7), Rotr(w15, 18)), JsShr(w15, 3));
      var s1 := JsXor(JsXor(Rotr(w2, 17), Rotr(w2, 19)), JsShr(w2, 10));
      && Exact(w16 + s0 + w7 + s1)
      && ToUint32(w16 + s0 + w7 + s1) == Add(Add(Add(SmallSigma1(w2), w7), SmallSigma0(w15)), w16)
  {
    var s0 := JsXor(JsXor(Rotr(w15, 7), Rotr(w15, 18)), JsShr(w15, 3));
    var s1 := JsXor(JsXor(Rotr(w2, 17), Rotr(w2, 19)), JsShr(w2, 10));
    SmallSigmas(w15, w2);
    assert w16 + s0 + w7 + s1 == s1 + w7 + s0 + w16;
    Sum4(s1, w7, s0, w16);
    WordIsItself(w7);
    WordIsItself(w16);
    assert -0x8000_0000 <= s0 < 0x8000_0000 && -0x8000_0000 <= s1 < 0x8000_0000;
  }

  lemma SmallSigmas(x: Word, y: Word)
    ensures ToUint32(JsXor(JsXor(Rotr(x, 7), Rotr(x, 18)), JsShr(x, 3))) == SmallSigma0(x)
    ensures ToUint32(JsXor(JsXor(Rotr(y, 17), Rotr(y, 19)), JsShr(y, 10))) == SmallSigma1(y)
  {
    WordIsItself(x);
    WordIsItself(y);
    RotationsXor(x, 7, 18, JsShr(x, 3));
    RotationsXor(y, 17, 19, JsShr(y, 10));
    WordIsItself(JsShr(x, 3));
    WordIsItself(JsShr(y, 10));
  }

  lemma BigSigma0IsSigma(x: Word)
    ensures ToUint32(JsXor(JsXor(Rotr(x, 2), Rotr(x, 13)), Rotr(x, 22))) == BigSigma0(x)
  {
    WordIsItself(x);
    RotationsXor(x, 2, 13, Rotr(x, 22));
    RotrIsROTR(x, 22);
  }

  lemma BigSigma1IsSigma(x: Word)
    ensures ToUint32(JsXor(JsXor(Rotr(x, 6), Rotr(x, 11)), Rotr(x, 25))) == BigSigma1(x)
  {
    WordIsItself(x);
    RotationsXor(x, 6, 11, Rotr(x, 25));
    RotrIsROTR(x, 25);
  }

  lemma Sum4(a: int, b: int, c: int, d: int)
    ensures ToUint32(a + b + c + d) == Add(Add(Add(ToUint32(a), ToUint32(b)), ToUint32(c)), ToUint32(d))
  {
    SumIsAdd(a, b);
    SumIsAdd(a + b, c);
    SumIsAdd(a + b + c, d);
  }

  /** The first temporary of the standard, from a sum that stays exact. */
  lemma FirstSum(e: Word, f: Word, g: Word, h: Word, k: Word, w: Word)
    ensures var S1 := JsXor(JsXor(Rotr(e, 6), Rotr(e, 11)), Rotr(e, 25));
      var ch := JsXor(JsAnd(e, f), JsAnd(JsNot(e), g));
      && Exact(h + S1 + ch + k + w)
      && ToUint32(h + S1 + ch + k + w) == Add(Add(Add(Add(h, BigSigma1(e)), Ch(e, f, g)), k), w)
  {
    var S1 := JsXor(JsXor(Rotr(e, 6), Rotr(e, 11)), Rotr(e, 25));
    var ch := JsXor(JsAnd(e, f), JsAnd(JsNot(e), g));
    BigSigma1IsSigma(e);
    ChIsCh(e, f, g);
    Sum4(h, S1, ch, k);
    SumIsAdd(h + S1 + ch + k, w);
    WordIsItself(h);
    WordIsItself(k);
    WordIsItself(w);
    assert -0x8000_0000 <= S1 < 0x8000_0000 && -0x8000_0000 <= ch < 0x8000_0000;
  }

  /** The second temporary. */
  lemma SecondSum(a: Word, b: Word, c: Word)
    ensures var S0 := JsXor(JsXor(Rotr(a, 2), Rotr(a, 13)), Rotr(a, 22));
      var maj := JsXor(JsXor(JsAnd(a, b), JsAnd(a, c)), JsAnd(b, c));
      && Exact(S0 + maj)
      && ToUint32(S0 + maj) == Add(BigSigma0(a), Maj(a, b, c))
  {
    var S0 := JsXor(JsXor(Rotr(a, 2), Rotr(a, 13)), Rotr(a, 22));
    var maj := JsXor(JsXor(JsAnd(a, b), JsAnd(a, c)), JsAnd(b, c));
    BigSigma0IsSigma(a);
    MajIsMaj(a, b, c);
    SumIsAdd(S0, maj);
    assert -0x8000_0000 <= S0 < 0x8000_0000 && -0x8000_0000 <= maj < 0x8000_0000;
  }

  // ----- the program ---------------------------------------------------------------------

  /** DataView.getUint32, big-endian. */
  method GetUint32(msg: array<Byte>, i: nat) returns (r: Word)
    requires i + 4 <= msg.Length
    ensures r == WordAt(msg[..], i)
  {
    r := FourBytes(msg[i], msg[i + 1], msg[i + 2], msg[i + 3]);
  }

  /** DataView.setUint32, big-endian. */
  method SetUint32(msg: array<Byte>, i: nat, v: int)
    requires i + 4 <= msg.Length
    modifies msg
    ensures msg[..] == old(msg[..i]) + BigEndian(ToUint32(v), 4) + old(msg[i + 4..])
  {
    var u := ToUint32(v);
    FourBigEndian(u);
    msg[i], msg[i + 1], msg[i + 2], msg[i + 3] := u / 0x100_0000, u / 0x1_0000 % 256, u / 0x100 % 256, u % 256;
  }

  lemma FourBigEndian(v: Word)
    ensures BigEndian(v, 4) == [v / 0x100_0000, v / 0x1_0000 % 256, v / 0x100 % 256, v % 256]
  {
    assert BigEndian(v, 4) == BigEndian(v / 256, 3) + [v % 256];
    assert BigEndian(v / 256, 3) == BigEndian(v / 256 / 256, 2) + [v / 256 % 256];
    assert BigEndian(v / 256 / 256, 2) == BigEndian(v / 256 / 256 / 256, 1) + [v / 256 / 256 % 256];
    assert BigEndian(v / 256 / 256 / 256, 1) == [] + [v / 256 / 256 / 256 % 256];
  }

  method Pad(input: array<Byte>) returns (msg: array<Byte>)
    requires Exact(8 * input.Length)
    ensures fresh(msg) && msg[..] == Padded(input[..])
  {
    var n := input.Length;
    var bitLen := 8 * n;
    var paddedLen := (n + 9 + 63) / 64 * 64;
    PaddedLength(n);
    msg := new Byte[paddedLen](i requires 0 <= i < paddedLen reads input => if i < n then input[i] else if i == n then 0x80 else 0);
    SetUint32(msg, paddedLen - 8, bitLen / Modulus);
    SetUint32(msg, paddedLen - 4, bitLen);
    TwoWords(bitLen);
    assert msg[..] == Padded(input[..]);
  }

  /** Rounding up to whole blocks gives the length of the padded message. */
  lemma PaddedLength(n: nat)
    ensures (n + 9 + 63) / 64 * 64 == n + 9 + ZeroBytes(n)
  {
    ZerosFit(n);
  }

  function Pow256(k: nat): nat {
    if k == 0 then 1 else 256 * Pow256(k - 1)
  }

  lemma Chop(q: nat, p: nat, r: nat)
    ensures (q * (256 * p) + r) / 256 == q * p + r / 256 && (q * (256 * p) + r) % 256 == r % 256
  {
    var x := q * p + r / 256;
    assert q * (256 * p) == 256 * (q * p);
    assert q * (256 * p) + r == 256 * x + r % 256;
  }

  lemma {:induction false} BigEndianSplit(q: nat, r: nat, n: nat, k: nat)
    requires r < Pow256(k)
    ensures BigEndian(q * Pow256(k) + r, n + k) == BigEndian(q, n) + BigEndian(r, k)
    decreases k
  {
    if k > 0 {
      Chop(q, Pow256(k - 1), r);
      BigEndianSplit(q, r / 256, n, k - 1);
    }
  }

  /** The two halves of the length are its eight bytes. */
  lemma TwoWords(v: nat)
    requires Exact(v)
    ensures BigEndian(v, 8) == BigEndian(ToUint32(v / Modulus), 4) + BigEndian(ToUint32(v), 4)
  {
    var q, r := v / Modulus, v % Modulus;
    assert Pow256(4) == Modulus;
    BigEndianSplit(q, r, 4, 4);
    assert q * Pow256(4) + r == v;
    WordIsItself(q);
  }

  method Expand(msg: array<Byte>, off: nat, w: array<Word>)
    requires off + 64 <= msg.Length && w.Length == 64
    modifies w
    ensures forall t :: 0 <= t < 64 ==> w[t] == W(msg[..], off, t)
  {
    for i := 0 to 16
      invariant forall t :: 0 <= t < i ==> w[t] == W(msg[..], off, t)
    {
      w[i] := GetUint32(msg, off + i * 4);
    }
    for i := 16 to 64
      invariant forall t :: 0 <= t < i ==> w[t] == W(msg[..], off, t)
    {
      w[i] := ScheduleWord(w[i - 16], w[i - 15], w[i - 7], w[i - 2]);
    }
  }

  method ScheduleWord(w16: Word, w15: Word, w7: Word, w2: Word) returns (r: Word)
    ensures r == Add(Add(Add(SmallSigma1(w2), w7), SmallSigma0(w15)), w16)
  {
    var s0 := JsXor(JsXor(Rotr(w15, 7), Rotr(w15, 18)), JsShr(w15, 3));
    var s1 := JsXor(JsXor(Rotr(w2, 17), Rotr(w2, 19)), JsShr(w2, 10));
    NextWord(w16, w15, w7, w2);
    r := JsShr(w16 + s0 + w7 + s1, 0);
  }

  method FirstTemporary(e: Word, f: Word, g: Word, h: Word, k: Word, w: Word) returns (t1: Word)
    ensures t1 == Add(Add(Add(Add(h, BigSigma1(e)), Ch(e, f, g)), k), w)
  {
    FirstSum(e, f, g, h, k, w);
    var S1 := JsXor(JsXor(Rotr(e, 6), Rotr(e, 11)), Rotr(e, 25));
    var ch := JsXor(JsAnd(e, f), JsAnd(JsNot(e), g));
    t1 := JsShr(h + S1 + ch + k + w, 0);
  }

  method SecondTemporary(a: Word, b: Word, c: Word) returns (t2: Word)
    ensures t2 == Add(BigSigma0(a), Maj(a, b, c))
  {
    SecondSum(a, b, c);
    var S0 := JsXor(JsXor(Rotr(a, 2), Rotr(a, 13)), Rotr(a, 22));
    var maj := JsXor(JsXor(JsAnd(a, b), JsAnd(a, c)), JsAnd(b, c));
    t2 := JsShr(S0 + maj, 0);
  }

  /** The body of the loop over the 64 rounds. */
  method RoundStep(v: Vars, k: Word, w: Word) returns (next: Vars)
    ensures next == Round(v, k, w)
  {
    var a: Word, b: Word, c: Word, d: int := v.a, v.b, v.c, v.d;
    var e: Word, f: Word, g: Word, h: Word := v.e, v.f, v.g, v.h;
    var t1: int := FirstTemporary(e, f, g, h, k, w);
    var t2: int := SecondTemporary(a, b, c);
    h := g;
    g := f;
    f := e;
    e := JsShr(d + t1, 0);
    d := c;
    c := b;
    b := a;
    a := JsShr(t1 + t2, 0);
    next := Vars(a, b, c, d, e, f, g, h);
  }

  /** One block: the 64 rounds, then the addition into H. */
  method Compress(H: array<Word>, msg: array<Byte>, off: nat, w: array<Word>)
    requires off + 64 <= msg.Length && w.Length == 64 && H.Length == 8
    requires forall t :: 0 <= t < 64 ==> w[t] == W(msg[..], off, t)
    modifies H
    ensures VarsOf(H[..]) == AddVars(old(VarsOf(H[..])), Rounds(old(VarsOf(H[..])), msg[..], off, 64))
  {
    ghost var start, m := VarsOf(H[..]), msg[..];
    var v := Vars(H[0], H[1], H[2], H[3], H[4], H[5], H[6], H[7]);
    for i := 0 to 64
      invariant v == Rounds(start, m, off, i) && H[..] == old(H[..]) && msg[..] == m && w[..] == old(w[..])
    {
      v := RoundStep(v, K(i), w[i]);
    }
    assert VarsOf(H[..]) == start;
    Accumulate(H, v);
    assert VarsOf(H[..]) == AddVars(start, v);
    assert msg[..] == m;
    assert v == Rounds(start, m, off, 64);
  }

  method Accumulate(H: array<Word>, v: Vars)
    requires H.Length == 8
    modifies H
    ensures VarsOf(H[..]) == AddVars(old(VarsOf(H[..])), v)
  {
    H[0] := JsShr(H[0] + v.a, 0);
    H[1] := JsShr(H[1] + v.b, 0);
    H[2] := JsShr(H[2] + v.c, 0);
    H[3] := JsShr(H[3] + v.d, 0);
    H[4] := JsShr(H[4] + v.e, 0);
    H[5] := JsShr(H[5] + v.f, 0);
    H[6] := JsShr(H[6] + v.g, 0);
    H[7] := JsShr(H[7] + v.h, 0);
  }

  method HashBlock(H: array<Word>, msg: array<Byte>, off: nat, w: array<Word>)
    requires H.Length == 8 && w.Length == 64 && off + 64 <= msg.Length
    modifies H, w
    ensures msg[..] == old(msg[..])
    ensures VarsOf(H[..]) == AddVars(old(VarsOf(H[..])), Rounds(old(VarsOf(H[..])), msg[..], off, 64))
  {
    ghost var m, before := msg[..], VarsOf(H[..]);
    Expand(msg, off, w);
    assert msg[..] == m && VarsOf(H[..]) == before;
    Compress(H, msg, off, w);
    assert msg[..] == m;
  }

  /** The loop over the blocks. */
  method HashBlocks(H: array<Word>, msg: array<Byte>)
    requires H.Length == 8 && msg.Length % 64 == 0 && VarsOf(H[..]) == HashOf(msg[..], 0)
    modifies H
    ensures VarsOf(H[..]) == HashOf(msg[..], msg.Length / 64)
  {
    var w := new Word[64](_ => 0);
    var blocks := msg.Length / 64;
    assert 64 * blocks == msg.Length;
    for k := 0 to blocks
      invariant msg[..] == old(msg[..]) && VarsOf(H[..]) == HashOf(msg[..], k)
    {
      HashStep(msg[..], k);
      HashBlock(H, msg, 64 * k, w);
    }
  }

  lemma HashStep(m: seq<Byte>, k: nat)
    requires 64 * k + 64 <= |m|
    ensures HashOf(m, k + 1) == AddVars(HashOf(m, k), Rounds(HashOf(m, k), m, 64 * k, 64))
  {
  }

  /** For every input whose length in bits is exact as a JavaScript number, the SHA-256 digest. */
  method Sha256Bytes(input: array<Byte>) returns (out: array<Byte>)
    requires Exact(8 * input.Length)
    ensures fresh(out) && out[..] == Digest(input[..])
  {
    var H := new Word[8](i requires 0 <= i < 8 => Initial[i]);
    assert H[..] == Initial;
    var msg := Pad(input);
    PaddingIsShortest(input[..], 0);
    HashBlocks(H, msg);
    out := Output(H);
  }

  method Output(H: array<Word>) returns (out: array<Byte>)
    requires H.Length == 8
    ensures fresh(out) && out[..] == VarsBytes(VarsOf(H[..]))
  {
    out := new Byte[32](_ => 0);
    for i := 0 to 8
      invariant out[..4 * i] == WordsBytes(H[..i])
    {
      SetUint32(out, 4 * i, H[i]);
      WordIsItself(H[i]);
      assert H[..i + 1][..i] == H[..i];
    }
    assert H[..8] == [H[0], H[1], H[2], H[3], H[4], H[5], H[6], H[7]];
    assert out[..32] == out[..];
  }
}
