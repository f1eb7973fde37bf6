/**
 * JavaScript's number helpers as the two controls use them, over `real`:
 * Math.min, Math.max, Math.abs, Math.round, the clamp `Math.min(Math.max(lo, x), hi)`,
 * and the step quantizer `Math.round(x / step) * step`.
 */
module Numbers {

  function Min(a: real, b: real): real { if a <= b then a else b }

  function Max(a: real, b: real): real { if a >= b then a else b }

  function Abs(x: real): real { if x < 0.0 then -x else x }

  function IntMin(a: int, b: int): int { if a <= b then a else b }

  function IntMax(a: int, b: int): int { if a >= b then a else b }

  /** `Math.min(Math.max(lo, x), hi)`: the lower bound is applied first, so `hi` wins when lo > hi. */
  function Clamp(x: real, lo: real, hi: real): (r: real)
    ensures lo <= hi ==> lo <= r <= hi
    ensures lo <= x <= hi ==> r == x
    ensures lo <= hi && x <= lo ==> r == lo
    ensures lo <= hi && hi <= x ==> r == hi
    ensures hi < lo ==> r == hi
  {
    Min(Max(lo, x), hi)
  }

  /** `Math.round`: the nearest integer, a half rounded up (towards +infinity). */
  function Round(x: real): (n: int)
    ensures x - 0.5 < n as real <= x + 0.5
  {
    (x + 0.5).Floor
  }

  /** `Math.round(x / step) * step`: the multiple of `step` nearest to `x`. */
  function Quantize(x: real, step: real): (r: real)
    requires step != 0.0
    ensures Abs(r - x) <= Abs(step) / 2.0
  {
    var q := x / step;
    var n := Round(q);
    QuantizeError(x, step, q, n);
    n as real * step
  }

  lemma QuantizeError(x: real, step: real, q: real, n: int)
    requires step != 0.0 && q == x / step
    requires q - 0.5 < n as real <= q + 0.5
    ensures Abs(n as real * step - x) <= Abs(step) / 2.0
  {
    var d := n as real - q;
    assert q * step == x;
    assert n as real * step - x == d * step;
    assert -0.5 < d <= 0.5;
    if step > 0.0 {
      assert -0.5 * step <= d * step <= 0.5 * step;
    } else {
      assert 0.5 * step <= d * step <= -0.5 * step;
    }
  }

  /** A quantized value is already on the step grid: quantizing it again changes nothing. */
  lemma QuantizeIdempotent(x: real, step: real)
    requires step != 0.0
    ensures Quantize(Quantize(x, step), step) == Quantize(x, step)
  {
    var n := Round(x / step);
    assert Quantize(x, step) == n as real * step;
    QuantizeOnGrid(n, step);
  }

  /** A value already on the grid is left alone. */
  lemma QuantizeOnGrid(n: int, step: real)
    requires step != 0.0
    ensures Quantize(n as real * step, step) == n as real * step
  {
    assert n as real * step / step == n as real;
    assert Round(n as real) == n;
  }

  /** A real with no fractional part. */
  predicate IsWhole(x: real) {
    x.Floor as real == x
  }

  // Ordered-field facts the solver does not find on its own. A strict fact about a product
  // is handed back through a named result, which the caller's arithmetic can use directly.

  lemma MulMonotone(a: real, b: real, c: real)
    requires a <= b && 0.0 <= c
    ensures a * c <= b * c
  {
    assert (b - a) * c >= 0.0;
  }

  /** a < b and c > 0 give a * c + g == b * c for a positive gap g. */
  lemma MulGap(a: real, b: real, c: real) returns (g: real)
    requires a < b && 0.0 < c
    ensures 0.0 < g && a * c + g == b * c
  {
    g := (b - a) * c;
  }

  /** A fraction f in [0,1] of a non-negative width d stays within [0, d]. */
  lemma ScaledWithin(f: real, d: real)
    requires 0.0 <= f <= 1.0 && 0.0 <= d
    ensures 0.0 <= f * d <= d
  {
    MulMonotone(0.0, f, d);
    MulMonotone(f, 1.0, d);
  }

  /** A fraction f in (0,1) of a positive width d lies strictly inside (0, d). */
  lemma ScaledInside(f: real, d: real) returns (p: real)
    requires 0.0 < f < 1.0 && 0.0 < d
    ensures p == f * d && 0.0 < p < d
  {
    p := f * d;
    var g1 := MulGap(0.0, f, d);
    var g2 := MulGap(f, 1.0, d);
  }

  /** A number strictly inside (0,1) has its square strictly inside (0,1). */
  lemma SquareInUnit(x: real) returns (s: real)
    requires 0.0 < x < 1.0
    ensures s == x * x && 0.0 < s < 1.0
  {
    s := ScaledInside(x, x);
  }

  /** 0 < a < d gives a quotient a / d strictly inside (0,1). */
  lemma QuotientInUnit(a: real, d: real) returns (q: real)
    requires 0.0 < a < d
    ensures q == a / d && 0.0 < q < 1.0
  {
    q := a / d;
    assert q * d == a;
    var g := MulGap(q, 1.0, d);
  }

  /** Dividing by d undoes multiplying by d. */
  lemma MulDiv(x: real, d: real)
    requires d != 0.0
    ensures x * d / d == x
  {
  }

  /** Multiplying by d undoes dividing by d. */
  lemma DivMul(x: real, d: real)
    requires d != 0.0
    ensures x / d * d == x
  {
  }

  /** Dividing by a positive number keeps the order. */
  lemma DivMonotone(x: real, y: real, c: real)
    requires x <= y && 0.0 < c
    ensures x / c <= y / c
  {
  }

  /** `Math.round` keeps the order of its arguments. */
  lemma RoundMonotone(a: real, b: real)
    requires a <= b
    ensures Round(a) <= Round(b)
  {
  }

  /** Dividing by a negative number reverses the order. */
  lemma DivAntitone(x: real, y: real, c: real)
    requires x <= y && c < 0.0
    ensures y / c <= x / c
  {
    DivMonotone(x, y, -c);
    assert x / -c == -(x / c) && y / -c == -(y / c);
  }

  /** Multiplying by a non-positive number reverses the order. */
  lemma MulAntitone(a: real, b: real, c: real)
    requires a <= b && c <= 0.0
    ensures b * c <= a * c
  {
    assert (b - a) * c <= 0.0;
  }

  /** Rounding to a step keeps the order of two values, whatever the sign of the step. */
  lemma QuantizeMonotone(x: real, y: real, step: real)
    requires x <= y && step != 0.0
    ensures Quantize(x, step) <= Quantize(y, step)
  {
    RoundScaledMonotone(x, y, step);
  }

  lemma RoundScaledMonotone(x: real, y: real, step: real)
    requires x <= y && step != 0.0
    ensures Round(x / step) as real * step <= Round(y / step) as real * step
  {
    var a, b := Round(x / step) as real, Round(y / step) as real;
    if step > 0.0 {
      DivMonotone(x, y, step);
      RoundMonotone(x / step, y / step);
      MulMonotone(a, b, step);
    } else {
      DivAntitone(x, y, step);
      RoundMonotone(y / step, x / step);
      MulAntitone(b, a, step);
    }
  }

  /** Rounding a number that lies between two whole numbers stays between them. */
  lemma RoundBetween(q: real, a: real, b: real)
    requires IsWhole(a) && IsWhole(b) && a <= q <= b
    ensures a <= Round(q) as real <= b
  {
    var n, lo, hi := Round(q), a.Floor, b.Floor;
    assert lo as real - 0.5 < n as real;
    assert lo <= n;
    assert n as real <= hi as real + 0.5;
    assert n <= hi;
  }

  /** A whole multiple of a positive step that lies between the multiples a and b of the step
      lies between a * step and b * step. */
  lemma GridBetween(lo: real, hi: real, step: real, n: real)
    requires 0.0 < step && lo / step <= n <= hi / step
    ensures lo <= n * step <= hi
  {
    MulMonotone(lo / step, n, step);
    MulMonotone(n, hi / step, step);
    DivMul(lo, step);
    DivMul(hi, step);
  }

  /** Non-negative numbers with equal squares are equal. */
  lemma SquareInjective(a: real, b: real)
    requires 0.0 <= a && 0.0 <= b && a * a == b * b
    ensures a == b
  {
    assert (a - b) * (a + b) == 0.0;
    ZeroProduct(a - b, a + b);
  }

  lemma ZeroProduct(x: real, y: real)
    requires x * y == 0.0
    ensures x == 0.0 || y == 0.0
  {
  }

  /** A non-negative number whose square is in (0,1) is itself in (0,1). */
  lemma UnitOfSquare(r: real)
    requires 0.0 <= r && 0.0 < r * r < 1.0
    ensures 0.0 < r < 1.0
  {
    if 1.0 <= r {
      MulMonotone(1.0, r, r);
    }
  }
}
