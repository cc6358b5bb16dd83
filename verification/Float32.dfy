/**
  The part of IEEE 754 binary32 that the motor commands rely on: the value of a
  bit pattern, the pattern of a small integer, and rounding to an integer.
*/
module Float32 {
  import opened Base

  const SIGN: nat := 0x8000_0000
  const IMPLICIT: nat := 0x80_0000
  const EXACT: nat := 0x100_0000

  datatype Value = Finite(v: real) | Infinite(negative: bool) | NotANumber

  function Pow2(k: nat): (p: nat)
    ensures p > 0
  {
    if k == 0 then 1 else 2 * Pow2(k - 1)
  }

  /** `m * 2^(e - 150)`. */
  function Scaled(m: nat, e: nat): real {
    if e >= 150 then m as real * Pow2(e - 150) as real else m as real / Pow2(150 - e) as real
  }

  function Decode(bits: U32): Value {
    var negative := bits >= SIGN;
    var e, m := bits / IMPLICIT % 0x100, bits % IMPLICIT;
    if e == 0xFF then (if m == 0 then Infinite(negative) else NotANumber)
    else
      var v := if e == 0 then Scaled(m, 1) else Scaled(IMPLICIT + m, e);
      Finite(if negative then -v else v)
  }

  /** The position of the leading bit. */
  function Log2(n: nat): (k: nat)
    requires n > 0
    ensures Pow2(k) <= n < 2 * Pow2(k)
  {
    if n == 1 then 0 else 1 + Log2(n / 2)
  }

  lemma {:induction false} Pow2Grows(j: nat, k: nat)
    requires j <= k
    ensures Pow2(j) <= Pow2(k)
    decreases k
  {
    if j < k { Pow2Grows(j, k - 1); }
  }

  lemma {:induction false} Pow2Adds(j: nat, k: nat)
    ensures Pow2(j) * Pow2(k) == Pow2(j + k)
    decreases j
  {
    if j > 0 { Pow2Adds(j - 1, k); }
  }

  lemma Pow2Of23()
    ensures Pow2(23) == IMPLICIT
  {
    assert Pow2(8) == 256;
    assert Pow2(7) == 128;
    Pow2Adds(8, 8);
    Pow2Adds(7, 16);
  }

  lemma LeadingBit(n: nat)
    requires 0 < n < EXACT
    ensures Log2(n) <= 23
  {
    var k := Log2(n);
    Pow2Of23();
    assert Pow2(24) == EXACT;
    hide Log2, Pow2;
    if k >= 24 {
      Pow2Grows(24, k);
    }
  }

  lemma MulMonotone(x: nat, y: nat, p: nat)
    requires x <= y
    ensures x * p <= y * p
  {
    assert y * p == x * p + (y - x) * p;
  }

  lemma MulBetween(a: nat, n: nat, p: nat)
    requires a <= n < 2 * a && p > 0
    ensures a * p <= n * p < 2 * (a * p)
  {
    MulMonotone(a, n, p);
    MulMonotone(n + 1, 2 * a, p);
    assert (n + 1) * p == n * p + p;
    assert 2 * a * p == 2 * (a * p);
  }

  /** Integers below 2^24 have a leading bit of at most 23 and a 24-bit significand. */
  lemma SmallInteger(n: nat)
    requires 0 < n < EXACT
    ensures var k := Log2(n);
            k <= 23 && IMPLICIT <= n * Pow2(23 - k) < 2 * IMPLICIT
  {
    var k := Log2(n);
    LeadingBit(n);
    Pow2Of23();
    Pow2Adds(k, 23 - k);
    hide Log2, Pow2;
    MulBetween(Pow2(k), n, Pow2(23 - k));
  }

  function Abs(n: int): nat {
    if n < 0 then -n else n
  }

  /** The pattern of a small integer; the conversion is exact. */
  function OfInt(n: int): (bits: U32)
    requires -(EXACT as int) < n < EXACT
  {
    if n == 0 then 0
    else
      var a := Abs(n);
      SmallInteger(a);
      var k := Log2(a);
      (if n < 0 then SIGN else 0) + IMPLICIT * (127 + k) + (a * Pow2(23 - k) - IMPLICIT)
  }

  /** The three fields of a pattern are read back as they were put together. */
  lemma Fields(s: nat, e: nat, m: nat)
    requires s <= 1 && e <= 0xFF && m < IMPLICIT
    ensures var bits := SIGN * s + IMPLICIT * e + m;
            bits < 0x1_0000_0000 && (bits >= SIGN <==> s == 1) && bits / IMPLICIT % 0x100 == e && bits % IMPLICIT == m
  {
    var bits := SIGN * s + IMPLICIT * e + m;
    ModUnique(bits, 0x100 * s + e, m, IMPLICIT);
    ModUnique(bits / IMPLICIT, s, e, 0x100);
  }

  lemma FieldsOf(bits: U32)
    ensures var s := if bits >= SIGN then 1 else 0;
            bits == SIGN * s + IMPLICIT * (bits / IMPLICIT % 0x100) + bits % IMPLICIT
  {
    var q := bits / IMPLICIT;
    assert q / 0x100 == if bits >= SIGN then 1 else 0;
  }

  /** A scaled significand is positive unless it is zero. */
  lemma ScaledSign(m: nat, e: nat)
    ensures Scaled(m, e) >= 0.0 && (Scaled(m, e) > 0.0 <==> m > 0)
  {
    hide Pow2;
    if e >= 150 {
      var p := Pow2(e - 150);
      assert m > 0 ==> m as real * p as real > 0.0;
    }
  }

  lemma DecodeFields(s: nat, e: nat, m: nat)
    requires s <= 1 && 0 < e < 0xFF && m < IMPLICIT
    ensures var bits := SIGN * s + IMPLICIT * e + m;
            bits < 0x1_0000_0000
            && Decode(bits) == Finite(if s == 1 then -Scaled(IMPLICIT + m, e) else Scaled(IMPLICIT + m, e))
  {
    Fields(s, e, m);
    hide Scaled;
  }

  lemma SmallFields(a: nat) returns (k: nat, m: nat)
    requires 0 < a < EXACT
    ensures k == Log2(a) && k <= 23 && m < IMPLICIT && IMPLICIT + m == a * Pow2(23 - k)
  {
    SmallInteger(a);
    k := Log2(a);
    m := a * Pow2(23 - k) - IMPLICIT;
  }

  /** The three fields of a small integer's pattern. */
  lemma OfIntFields(n: int, s: nat, k: nat, m: nat)
    requires n != 0 && -(EXACT as int) < n < EXACT
    requires s == if n < 0 then 1 else 0
    requires k == Log2(Abs(n)) && k <= 23 && IMPLICIT + m == Abs(n) * Pow2(23 - k)
    ensures OfInt(n) == SIGN * s + IMPLICIT * (127 + k) + m
  {
    hide Log2, Pow2;
  }

  lemma DecodeZero()
    ensures Decode(0) == Finite(0.0)
  {
  }

  lemma NonzeroExact(n: int, s: nat, k: nat, m: nat)
    requires n != 0 && -(EXACT as int) < n < EXACT
    requires s == if n < 0 then 1 else 0
    requires k <= 23 && m < IMPLICIT && IMPLICIT + m == Abs(n) * Pow2(23 - k)
    ensures SIGN * s + IMPLICIT * (127 + k) + m < 0x1_0000_0000
    ensures Decode(SIGN * s + IMPLICIT * (127 + k) + m) == Finite(n as real)
  {
    DecodeFields(s, 127 + k, m);
    ScaledExact(Abs(n), 23 - k, IMPLICIT + m);
    hide Decode, Scaled, Log2, Pow2, OfInt;
  }

  /** Small integers survive the conversion to binary32 unchanged. */
  lemma OfIntExact(n: int)
    requires -(EXACT as int) < n < EXACT
    ensures Decode(OfInt(n)) == Finite(n as real)
  {
    hide Decode, Scaled, Log2, Pow2;
    if n == 0 {
      DecodeZero();
    } else {
      var s := if n < 0 then 1 else 0;
      var k, m := SmallFields(Abs(n));
      hide *;
      OfIntFields(n, s, k, m);
      NonzeroExact(n, s, k, m);
    }
  }

  lemma {:induction false} RealProduct(a: nat, p: nat)
    ensures (a * p) as real == a as real * p as real
    decreases p
  {
    if p > 0 {
      RealProduct(a, p - 1);
      assert a * p == a * (p - 1) + a;
    }
  }

  lemma DivideBack(a: nat, p: nat, q: nat)
    requires p > 0 && q == a * p
    ensures q as real / p as real == a as real
  {
    RealProduct(a, p);
  }

  lemma ScaledExact(a: nat, j: nat, m: nat)
    requires j <= 23 && m == a * Pow2(j)
    ensures Scaled(m, 150 - j) == a as real
  {
    assert Pow2(0) == 1;
    hide Pow2;
    DivideBack(a, Pow2(j), m);
  }

  /** Rounding half away from zero. */
  function Round(v: real): int {
    if v >= 0.0 then (v + 0.5).Floor else -(-v + 0.5).Floor
  }

  lemma RoundInteger(n: int)
    ensures Round(n as real) == n
  {
  }
}
