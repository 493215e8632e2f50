/** The 64-bit FNV-1a digest of the build inputs. */
module Fnv {
  type Byte = x: nat | x < 256

  const MODULUS: nat := 0x1_0000_0000_0000_0000
  const OFFSET_BASIS: nat := 0xcbf2_9ce4_8422_2325
  const PRIME: nat := 0x100_0000_01b3

  /** The inverse of the prime modulo 2^64: it exists because the prime is odd. */
  const INVERSE: nat := 0xce96_5057_aff6_957b

  type Word = x: nat | x < 0x1_0000_0000_0000_0000

  function Pow2(n: nat): nat {
    if n == 0 then 1 else 2 * Pow2(n - 1)
  }

  /** Exclusive or of the lowest `n` bits. */
  function Xor(x: nat, y: nat, n: nat): (r: nat)
    ensures r < Pow2(n)
  {
    if n == 0 then 0 else (x % 2 + y % 2) % 2 + 2 * Xor(x / 2, y / 2, n - 1)
  }

  lemma EightBits()
    ensures Pow2(8) == 256
  {
    assert Pow2(4) == 16;
  }

  /** Xor of a byte into the low bits of a word. */
  function Mix(h: Word, b: Byte): Word {
    EightBits();
    h / 256 * 256 + Xor(h % 256, b, 8)
  }

  function Multiply(h: Word): Word {
    h * PRIME % MODULUS
  }

  function Step(h: Word, b: Byte): Word {
    Multiply(Mix(h, b))
  }

  function Fold(h: Word, data: seq<Byte>): Word
    decreases |data|
  {
    if data == [] then h else Fold(Step(h, data[0]), data[1..])
  }

  function Digest(data: seq<Byte>): Word {
    Fold(OFFSET_BASIS, data)
  }

  // ----- every step is a bijection -----------------------------------------

  lemma Halves(x: nat)
    ensures x == x % 2 + 2 * (x / 2)
  {
  }

  lemma Compose(c: nat, t: nat)
    requires c < 2
    ensures (c + 2 * t) % 2 == c && (c + 2 * t) / 2 == t
  {
  }

  lemma XorParts(x: nat, y: nat, n: nat)
    requires n > 0
    ensures Xor(x, y, n) % 2 == (x % 2 + y % 2) % 2 && Xor(x, y, n) / 2 == Xor(x / 2, y / 2, n - 1)
  {
    Compose((x % 2 + y % 2) % 2, Xor(x / 2, y / 2, n - 1));
  }

  lemma BitTwice(c: nat, d: nat)
    requires c < 2 && d < 2
    ensures ((c + d) % 2 + d) % 2 == c
  {
  }

  lemma BitCancels(c: nat, d: nat, d': nat)
    requires c < 2 && d < 2 && d' < 2
    ensures (c + d) % 2 == (c + d') % 2 <==> d == d'
  {
  }

  lemma {:induction false} XorTwice(x: nat, y: nat, n: nat)
    requires x < Pow2(n)
    ensures Xor(Xor(x, y, n), y, n) == x
    decreases n
  {
    if n > 0 {
      XorTwice(x / 2, y / 2, n - 1);
      XorParts(x, y, n);
      BitTwice(x % 2, y % 2);
      Halves(x);
    }
  }

  lemma {:induction false} XorCancels(x: nat, y: nat, y': nat, n: nat)
    requires y < Pow2(n) && y' < Pow2(n)
    ensures Xor(x, y, n) == Xor(x, y', n) <==> y == y'
    decreases n
  {
    if n > 0 {
      XorCancels(x / 2, y / 2, y' / 2, n - 1);
      XorParts(x, y, n);
      XorParts(x, y', n);
      BitCancels(x % 2, y % 2, y' % 2);
      Halves(y);
      Halves(y');
    }
  }

  lemma MixParts(h: Word, b: Byte)
    ensures Mix(h, b) / 256 == h / 256 && Mix(h, b) % 256 == Xor(h % 256, b, 8)
  {
    EightBits();
  }

  /** Mixing the same byte in twice undoes it. */
  lemma MixTwice(h: Word, b: Byte)
    ensures Mix(Mix(h, b), b) == h
  {
    EightBits();
    MixParts(h, b);
    XorTwice(h % 256, b, 8);
  }

  lemma MixInjective(h: Word, b: Byte, b': Byte)
    ensures Mix(h, b) == Mix(h, b') <==> b == b'
  {
    EightBits();
    MixParts(h, b);
    MixParts(h, b');
    XorCancels(h % 256, b, b', 8);
  }

  lemma ModUnique(x: Word, t: int)
    ensures (x + t * MODULUS) % MODULUS == x
  {
  }

  /** Multiplying by the prime can be undone. */
  lemma MultiplyInvertible(h: Word)
    ensures Multiply(h) * INVERSE % MODULUS == h
  {
    var q := h * PRIME / MODULUS;
    InverseProduct(h, q, Multiply(h));
    ModUnique(h, h * 0xce_9650_590f - q * INVERSE);
  }

  lemma InverseProduct(h: int, q: int, r: int)
    requires h * PRIME == q * MODULUS + r
    ensures r * INVERSE == h + (h * 0xce_9650_590f - q * INVERSE) * MODULUS
  {
  }

  lemma StepInjective(h: Word, h': Word, b: Byte)
    ensures Step(h, b) == Step(h', b) <==> h == h'
  {
    MultiplyInvertible(Mix(h, b));
    MultiplyInvertible(Mix(h', b));
    MixTwice(h, b);
    MixTwice(h', b);
  }

  lemma StepSeparates(h: Word, b: Byte, b': Byte)
    ensures Step(h, b) == Step(h, b') <==> b == b'
  {
    MultiplyInvertible(Mix(h, b));
    MultiplyInvertible(Mix(h, b'));
    MixInjective(h, b, b');
  }

  // ----- digests -----------------------------------------------------------

  lemma {:induction false} FoldInjective(h: Word, h': Word, data: seq<Byte>)
    ensures Fold(h, data) == Fold(h', data) <==> h == h'
    decreases |data|
  {
    if data != [] {
      StepInjective(h, h', data[0]);
      FoldInjective(Step(h, data[0]), Step(h', data[0]), data[1..]);
    }
  }

  lemma {:induction false} FoldConcat(h: Word, a: seq<Byte>, b: seq<Byte>)
    ensures Fold(h, a + b) == Fold(Fold(h, a), b)
    decreases |a|
  {
    if a == [] {
      assert a + b == b;
    } else {
      assert (a + b)[1..] == a[1..] + b;
      FoldConcat(Step(h, a[0]), a[1..], b);
    }
  }

  /** Appending a common suffix neither creates nor removes a collision. */
  lemma CommonSuffix(a: seq<Byte>, b: seq<Byte>, suffix: seq<Byte>)
    ensures Digest(a + suffix) == Digest(b + suffix) <==> Digest(a) == Digest(b)
  {
    FoldConcat(OFFSET_BASIS, a, suffix);
    FoldConcat(OFFSET_BASIS, b, suffix);
    FoldInjective(Digest(a), Digest(b), suffix);
  }

  /** Two inputs of the same length that differ in exactly one byte never collide. */
  lemma OneByteDiffers(a: seq<Byte>, b: seq<Byte>, k: nat)
    requires |a| == |b| && k < |a| && a[k] != b[k]
    requires forall i :: 0 <= i < |a| && i != k ==> a[i] == b[i]
    ensures Digest(a) != Digest(b)
  {
    var prefix, suffix := a[..k], a[k + 1..];
    assert a == prefix + [a[k]] + suffix && b == prefix + [b[k]] + suffix;
    CommonSuffix(prefix + [a[k]], prefix + [b[k]], suffix);
    FoldConcat(OFFSET_BASIS, prefix, [a[k]]);
    FoldConcat(OFFSET_BASIS, prefix, [b[k]]);
    FoldOne(Digest(prefix), a[k]);
    FoldOne(Digest(prefix), b[k]);
    StepSeparates(Digest(prefix), a[k], b[k]);
  }

  lemma FoldOne(h: Word, b: Byte)
    ensures Fold(h, [b]) == Step(h, b)
  {
    assert [b][1..] == [];
  }

  // ----- printing ----------------------------------------------------------

  const HEX := "0123456789abcdef"

  /** The lowest `n` hex digits of `x`, most significant first. */
  function HexDigits(x: nat, n: nat): (s: string)
    ensures |s| == n
  {
    if n == 0 then "" else HexDigits(x / 16, n - 1) + [HEX[x % 16]]
  }

  function HexPower(n: nat): nat {
    if n == 0 then 1 else 16 * HexPower(n - 1)
  }

  /** Padded to `n` digits, numbers below 16^n print differently. */
  lemma {:induction false} HexInjective(x: nat, y: nat, n: nat)
    requires x < HexPower(n) && y < HexPower(n)
    ensures HexDigits(x, n) == HexDigits(y, n) <==> x == y
    decreases n
  {
    if n > 0 {
      HexInjective(x / 16, y / 16, n - 1);
      var p, q := HexDigits(x / 16, n - 1), HexDigits(y / 16, n - 1);
      if HexDigits(x, n) == HexDigits(y, n) {
        assert p == HexDigits(x, n)[..n - 1] && q == HexDigits(y, n)[..n - 1];
        assert HEX[x % 16] == HexDigits(x, n)[n - 1] && HEX[y % 16] == HexDigits(y, n)[n - 1];
        HexDistinct(x % 16, y % 16);
      }
    }
  }

  lemma HexDistinct(i: nat, j: nat)
    requires i < 16 && j < 16 && HEX[i] == HEX[j]
    ensures i == j
  {
  }

  lemma SixteenDigits()
    ensures HexPower(16) == MODULUS
  {
    assert HexPower(4) == 0x1_0000;
    assert HexPower(8) == 0x1_0000_0000;
    assert HexPower(12) == 0x1_0000_0000_0000;
  }

  function Fingerprint(data: seq<Byte>): (s: string)
    ensures |s| == 16
  {
    HexDigits(Digest(data), 16)
  }

  /** Printing loses nothing: equal fingerprints are equal digests. */
  lemma FingerprintIsDigest(a: seq<Byte>, b: seq<Byte>)
    ensures Fingerprint(a) == Fingerprint(b) <==> Digest(a) == Digest(b)
  {
    SixteenDigits();
    HexInjective(Digest(a), Digest(b), 16);
  }

  lemma DivideTwice(x: nat, c: nat, p: nat, m: nat)
    requires c > 0 && p > 0 && m == c * p
    ensures m > 0 && x / c / p == x / m
  {
    QuotientOfParts(x, c, p, m, x / c / p, x / c % p, x % c);
  }

  lemma QuotientOfParts(x: nat, c: nat, p: nat, m: nat, q: nat, a: nat, b: nat)
    requires m == c * p && a < p && b < c && x == c * (p * q + a) + b
    ensures m > 0 && x / m == q
  {
    Spread(c, p, q, a, b);
    Below(c, p, a, b);
    QuotientIs(x, m, q, c * a + b);
  }

  lemma Spread(c: nat, p: nat, q: nat, a: nat, b: nat)
    ensures c * (p * q + a) + b == c * p * q + (c * a + b)
  {
  }

  lemma Below(c: nat, p: nat, a: nat, b: nat)
    requires a < p && b < c
    ensures c * a + b < c * p
  {
    Gap(c, p - a);
    assert c * p == c * a + c * (p - a);
  }

  lemma QuotientIs(x: nat, p: nat, q: nat, r: nat)
    requires x == p * q + r && r < p
    ensures x / p == q
  {
    var k := x / p;
    assert p * (k - q) == r - x % p;
    Gap(p, k - q);
  }

  lemma Gap(p: int, d: int)
    requires p >= 0
    ensures d >= 1 ==> p * d >= p
    ensures d <= -1 ==> p * d <= -p
  {
  }

  lemma {:induction false} HexPowerPositive(n: nat)
    ensures HexPower(n) > 0
  {
    if n > 0 {
      HexPowerPositive(n - 1);
    }
  }

  /** Positional notation, lower case: the `i`-th of `n` digits is that of weight 16^(n-1-i). */
  lemma {:induction false} HexDigitIs(x: nat, n: nat, i: nat)
    requires i < n
    ensures HexPower(n - 1 - i) > 0
    ensures HexDigits(x, n)[i] == "0123456789abcdef"[x / HexPower(n - 1 - i) % 16]
  {
    HexPowerPositive(n - 1 - i);
    if i < n - 1 {
      var p := HexPower(n - 2 - i);
      HexDigitIs(x / 16, n - 1, i);
      DivideTwice(x, 16, p, 16 * p);
      assert HexPower(n - 1 - i) == 16 * p && HexDigits(x, n)[i] == HexDigits(x / 16, n - 1)[i];
    }
  }

  lemma {:induction false} Pow2Positive(n: nat)
    ensures Pow2(n) > 0
  {
    if n > 0 {
      Pow2Positive(n - 1);
    }
  }

  /** Exclusive or, bit by bit. */
  lemma {:induction false} XorBitIs(x: nat, y: nat, n: nat, i: nat)
    requires i < n
    ensures Pow2(i) > 0 && Xor(x, y, n) / Pow2(i) % 2 == (x / Pow2(i) % 2 + y / Pow2(i) % 2) % 2
  {
    Pow2Positive(i);
    XorParts(x, y, n);
    if i > 0 {
      var p := Pow2(i - 1);
      XorBitIs(x / 2, y / 2, n - 1, i - 1);
      DivideTwice(x, 2, p, 2 * p);
      DivideTwice(y, 2, p, 2 * p);
      DivideTwice(Xor(x, y, n), 2, p, 2 * p);
    }
  }

  lemma {:induction false} XorZero(x: nat, n: nat)
    requires x < Pow2(n)
    ensures Xor(x, 0, n) == x
  {
    if n > 0 {
      XorZero(x / 2, n - 1);
    }
  }

  lemma {:induction false} XorSelf(x: nat, n: nat)
    ensures Xor(x, x, n) == 0
  {
    if n > 0 {
      XorSelf(x / 2, n - 1);
    }
  }

  lemma TimesPrime(h: Word)
    ensures h == 0xcbf2_9ce4_8422_2325 ==> Multiply(h) == 0xaf63_bd4c_8601_b7df
    ensures h == 0xcbf2_9ce4_8422_2300 ==> Multiply(h) == 0xaf63_984c_8601_7900
  {
  }

  /** The digests of the empty string, of a zero byte and of the low byte of the basis. */
  lemma KnownAnswers()
    ensures Digest([]) == 0xcbf2_9ce4_8422_2325
    ensures Digest([0]) == 0xaf63_bd4c_8601_b7df && Digest([0x25]) == 0xaf63_984c_8601_7900
  {
    var h := OFFSET_BASIS;
    EightBits();
    XorZero(h % 256, 8);
    XorSelf(0x25, 8);
    assert Mix(h, 0) == h && Mix(h, 0x25) == 0xcbf2_9ce4_8422_2300;
    TimesPrime(h);
    TimesPrime(0xcbf2_9ce4_8422_2300);
    FoldOne(h, 0);
    FoldOne(h, 0x25);
  }

  method Fnv1a64Hex(data: seq<Byte>) returns (s: string)
    ensures s == Fingerprint(data)
  {
    var hash: Word := OFFSET_BASIS;
    var i := 0;
    assert data[0..] == data;
    while i < |data|
      invariant 0 <= i <= |data|
      invariant Fold(hash, data[i..]) == Digest(data)
    {
      assert data[i..][1..] == data[i + 1..];
      hash := Mix(hash, data[i]);
      hash := Multiply(hash);
      i := i + 1;
    }
    s := HexDigits(hash, 16);
  }
}
