/**
 * Java's fixed-width integer arithmetic, written out over Dafny's unbounded
 * integers: the 32-bit `int` and 64-bit `long` ranges, two's-complement
 * wrap-around, division and remainder that truncate toward zero, and the
 * cast of a floating-point value to `int`.
 */
module JavaInt {

  const MinInt32: int := -0x8000_0000
  const MaxInt32: int := 0x7FFF_FFFF
  const MinInt64: int := -0x8000_0000_0000_0000
  const MaxInt64: int := 0x7FFF_FFFF_FFFF_FFFF

  /** A value of Java type `int`. */
  type int32 = x: int | -0x8000_0000 <= x < 0x8000_0000

  /** A value of Java type `long`. */
  type int64 = x: int | -0x8000_0000_0000_0000 <= x < 0x8000_0000_0000_0000

  function Abs(x: int): (r: nat)
    ensures r == x || r == -x
  {
    if x < 0 then -x else x
  }

  /** `Math.abs` of a `float` or `double`, on exact reals. */
  function AbsReal(r: real): (a: real)
    ensures a >= 0.0 && (a == r || a == -r)
  {
    if r < 0.0 then -r else r
  }

  /** The `int` that Java's 32-bit arithmetic produces for the exact value `x`. */
  function Wrap32(x: int): (r: int32)
    ensures MinInt32 <= x <= MaxInt32 ==> r == x
    ensures (x - r) % 0x1_0000_0000 == 0
  {
    (x + 0x8000_0000) % 0x1_0000_0000 - 0x8000_0000
  }

  /** The `long` that Java's 64-bit arithmetic produces for the exact value `x`. */
  function Wrap64(x: int): (r: int64)
    ensures MinInt64 <= x <= MaxInt64 ==> r == x
    ensures (x - r) % 0x1_0000_0000_0000_0000 == 0
  {
    (x + 0x8000_0000_0000_0000) % 0x1_0000_0000_0000_0000 - 0x8000_0000_0000_0000
  }

  /** The exact quotient of `a` by `b`, truncated toward zero (Java's rule). */
  function Quot(a: int, b: int): (q: int)
    requires b != 0
    ensures Abs(q) * Abs(b) <= Abs(a) < Abs(q) * Abs(b) + Abs(b)
    ensures (a < 0) == (b < 0) ==> q >= 0
    ensures (a < 0) != (b < 0) ==> q <= 0
  {
    var m := Abs(a) / Abs(b);
    NatDivBounds(Abs(a), Abs(b));
    if (a < 0) == (b < 0) then m else -m
  }

  lemma NatDivBounds(n: nat, d: nat)
    requires d > 0
    ensures (n / d) * d <= n < (n / d) * d + d
  {
    assert n == (n / d) * d + n % d;
  }

  /** Java's `a % b`: the remainder that goes with `Quot`, with the sign of `a`. */
  function Rem(a: int, b: int): (r: int)
    requires b != 0
    ensures a == Quot(a, b) * b + r
    ensures Abs(r) < Abs(b)
    ensures r == 0 || (r > 0 <==> a > 0)
  {
    QuotRem(a, b);
    a - Quot(a, b) * b
  }

  /** Java's `a / b` on `int` operands: only `MIN_VALUE / -1` overflows. */
  function Div32(a: int32, b: int32): (q: int32)
    requires b != 0
    ensures a != MinInt32 || b != -1 ==> q == Quot(a, b)
  {
    QuotBound32(a, b);
    Wrap32(Quot(a, b))
  }

  /** Relates the truncated quotient to the remainder it leaves. */
  lemma QuotRem(a: int, b: int)
    requires b != 0
    ensures Abs(a - Quot(a, b) * b) < Abs(b)
    ensures a - Quot(a, b) * b == 0 || (a - Quot(a, b) * b > 0 <==> a > 0)
  {
    var q := Quot(a, b);
    var m := Abs(a) / Abs(b);
    assert Abs(a) == m * Abs(b) + Abs(a) % Abs(b);
    if a >= 0 && b > 0 {
      assert q * b == m * Abs(b);
    } else if a >= 0 && b < 0 {
      assert q * b == (-m) * b == m * Abs(b);
    } else if a < 0 && b > 0 {
      assert q * b == (-m) * b == -(m * Abs(b));
    } else {
      assert q * b == m * b == -(m * Abs(b));
    }
  }

  /** Truncation toward zero is symmetric: negating the dividend negates the quotient. */
  lemma QuotNeg(a: int, b: int)
    requires b != 0
    ensures Quot(-a, b) == -Quot(a, b)
  {
    assert Abs(-a) == Abs(a);
  }

  /** Outside `MIN_VALUE / -1`, the truncated quotient of two `int`s is an `int`. */
  lemma QuotBound32(a: int32, b: int32)
    requires b != 0
    ensures a != MinInt32 || b != -1 ==> MinInt32 <= Quot(a, b) <= MaxInt32
  {
    var q := Quot(a, b);
    assert Abs(q) * Abs(b) <= Abs(a);
    if Abs(b) >= 2 {
      MulMono(Abs(q), 2, Abs(b));
    } else {
      assert Abs(q) == Abs(a);
    }
  }

  lemma MulMono(x: nat, y: nat, z: nat)
    requires y <= z
    ensures x * y <= x * z
  {
  }

  /** Java's `(int)` cast of a finite `float` or `double`: truncate toward zero, saturate at the `int` range. */
  function FloatToInt(v: real): (n: int32)
    ensures 0.0 <= v ==> 0 <= n <= v.Floor
    ensures 0.0 <= v < MaxInt32 as real + 1.0 ==> n == v.Floor
    ensures v < 0.0 ==> n <= 0
    ensures MinInt32 as real <= v < 0.0 ==> v <= n as real < v + 1.0
  {
    if v >= 0.0 then (if v.Floor > MaxInt32 then MaxInt32 else v.Floor)
    else
      var t := -((-v).Floor);
      if t < MinInt32 then MinInt32 else t
  }
}
