/**
 * The warp curves (`Ctl.warps`, `CVSlider.warps`): each maps a normalised position in [0,1]
 * to a value in [min, max] (`map`) and back (`unmap`), with the same boundary clamps in both
 * directions. Both controls define the four curves identically.
 *
 * Math.sqrt, Math.log and Math.exp are not part of the model: they are supplied as a
 * `Transcendentals` value, and the lemmas that need their laws ask for them explicitly.
 */
module Warps {
  import opened Base
  import opened Numbers

  datatype Warp = Lin | Exp | QuadIn | QuadOut

  /** The key of the warp in the warps table. */
  function WarpName(w: Warp): string {
    match w
    case Lin => "lin"
    case Exp => "exp"
    case QuadIn => "quadIn"
    case QuadOut => "quadOut"
  }

  /** `name in Ctl.warps`, restricted to the table's own four keys. */
  function WarpNamed(name: string): (r: Option<Warp>)
    ensures r.Some? ==> WarpName(r.value) == name
  {
    if name == "lin" then Some(Lin)
    else if name == "exp" then Some(Exp)
    else if name == "quadIn" then Some(QuadIn)
    else if name == "quadOut" then Some(QuadOut)
    else None
  }

  /** Every warp is found again under its own key, so the table has exactly these four names. */
  lemma WarpNameRoundTrip(w: Warp)
    ensures WarpNamed(WarpName(w)) == Some(w)
  {
  }

  /** Math.sqrt, Math.log and Math.exp, as supplied by the host. */
  datatype Transcendentals = Transcendentals(sqrt: real -> real, log: real -> real, exp: real -> real)

  /** Math.sqrt returns the non-negative square root of a non-negative number. */
  ghost predicate SqrtLaw(t: Transcendentals) {
    forall a :: 0.0 <= a ==> 0.0 <= t.sqrt(a) && t.sqrt(a) * t.sqrt(a) == a
  }

  /** Math.log is strictly increasing on the positives, Math.exp is strictly increasing,
      and each undoes the other. */
  ghost predicate LogExpLaw(t: Transcendentals) {
    && (forall a, b :: 0.0 < a < b ==> t.log(a) < t.log(b))
    && (forall a, b :: a < b ==> t.exp(a) < t.exp(b))
    && (forall a :: 0.0 < a ==> t.exp(t.log(a)) == a)
    && (forall y :: t.log(t.exp(y)) == y)
  }

  /** The laws a warp's curve relies on: none for `lin`, the square root for the quadratic
      curves, log and exp with a positive minimum for `exp`. */
  ghost predicate Lawful(w: Warp, t: Transcendentals, lo: real) {
    match w
    case Lin => true
    case Exp => 0.0 < lo && LogExpLaw(t)
    case QuadIn => SqrtLaw(t)
    case QuadOut => SqrtLaw(t)
  }

  /** `map`: normalised position to value, `lo` at or below 0 and `hi` at or above 1. */
  function Map(w: Warp, t: Transcendentals, lo: real, hi: real, x: real): real {
    if x <= 0.0 then lo
    else if x >= 1.0 then hi
    else match w
      case Lin => x * (hi - lo) + lo
      case Exp => t.exp(t.log(lo) + (t.log(hi) - t.log(lo)) * x)
      case QuadIn => (hi - lo) * x * x + lo
      case QuadOut => (hi - lo) * (1.0 - (1.0 - x) * (1.0 - x)) + lo
  }

  /** `unmap`: value to normalised position, 0 at or below `lo` and 1 at or above `hi`. */
  function Unmap(w: Warp, t: Transcendentals, lo: real, hi: real, v: real): real {
    if v <= lo then 0.0
    else if v >= hi then 1.0
    else match w
      case Lin => (v - lo) / (hi - lo)
      case Exp => LogRatio(t, lo, hi, v)
      case QuadIn => t.sqrt(Abs(v - lo) / (hi - lo))
      case QuadOut => 1.0 - t.sqrt(Abs(hi - v) / (hi - lo))
  }

  /** `(log(v) - log(lo)) / (log(hi) - log(lo))`; the quotient is only formed when the
      denominator is not zero, which a lawful log guarantees for lo < v < hi. */
  function LogRatio(t: Transcendentals, lo: real, hi: real, v: real): real {
    var den := t.log(hi) - t.log(lo);
    if den == 0.0 then 0.0 else (t.log(v) - t.log(lo)) / den
  }

  /** A square root of a number in (0,1) lies in (0,1). */
  lemma SqrtOfUnit(t: Transcendentals, a: real) returns (r: real)
    requires SqrtLaw(t) && 0.0 < a < 1.0
    ensures r == t.sqrt(a) && 0.0 < r < 1.0
  {
    r := t.sqrt(a);
    assert 0.0 <= r && r * r == a;
    UnitOfSquare(r);
  }

  /** The square root of a square is the number itself. */
  lemma SqrtOfSquare(t: Transcendentals, y: real)
    requires SqrtLaw(t) && 0.0 <= y
    ensures t.sqrt(y * y) == y
  {
    var r := t.sqrt(y * y);
    assert 0.0 <= r && r * r == y * y;
    SquareInjective(r, y);
  }

  /** Every warp's `map` stays inside [lo, hi] when lo <= hi, and hits the bounds exactly
      at and beyond the ends of [0,1]. */
  lemma MapWithin(w: Warp, t: Transcendentals, lo: real, hi: real, x: real)
    requires lo <= hi && Lawful(w, t, lo)
    ensures lo <= Map(w, t, lo, hi, x) <= hi
    ensures x <= 0.0 ==> Map(w, t, lo, hi, x) == lo
    ensures x >= 1.0 ==> Map(w, t, lo, hi, x) == hi
  {
    if 0.0 < x < 1.0 {
      match w
      case Lin => LinMapWithin(t, lo, hi, x);
      case QuadIn => QuadInMapWithin(t, lo, hi, x);
      case QuadOut => QuadOutMapWithin(t, lo, hi, x);
      case Exp => ExpMapWithin(t, lo, hi, x);
    }
  }

  lemma LinMapWithin(t: Transcendentals, lo: real, hi: real, x: real)
    requires lo <= hi && 0.0 < x < 1.0
    ensures lo <= Map(Lin, t, lo, hi, x) <= hi
  {
    var d := hi - lo;
    ScaledWithin(x, d);
    assert Map(Lin, t, lo, hi, x) == x * d + lo;
  }

  lemma QuadInMapWithin(t: Transcendentals, lo: real, hi: real, x: real)
    requires lo <= hi && 0.0 < x < 1.0
    ensures lo <= Map(QuadIn, t, lo, hi, x) <= hi
  {
    var d := hi - lo;
    var s := SquareInUnit(x);
    ScaledWithin(s, d);
    assert d * x * x == s * d;
    assert Map(QuadIn, t, lo, hi, x) == s * d + lo;
  }

  lemma QuadOutMapWithin(t: Transcendentals, lo: real, hi: real, x: real)
    requires lo <= hi && 0.0 < x < 1.0
    ensures lo <= Map(QuadOut, t, lo, hi, x) <= hi
  {
    var d := hi - lo;
    var s := SquareInUnit(1.0 - x);
    ScaledWithin(1.0 - s, d);
    assert d * (1.0 - s) == (1.0 - s) * d;
    assert Map(QuadOut, t, lo, hi, x) == (1.0 - s) * d + lo;
  }

  lemma ExpMapWithin(t: Transcendentals, lo: real, hi: real, x: real)
    requires 0.0 < lo <= hi && LogExpLaw(t) && 0.0 < x < 1.0
    ensures lo <= Map(Exp, t, lo, hi, x) <= hi
  {
    var a, b := t.log(lo), t.log(hi);
    assert t.exp(a) == lo && t.exp(b) == hi;
    var e := a + (b - a) * x;
    assert Map(Exp, t, lo, hi, x) == t.exp(t.log(lo) + (t.log(hi) - t.log(lo)) * x);
    assert Map(Exp, t, lo, hi, x) == t.exp(e);
    if lo == hi {
      assert e == a;
    } else {
      assert a < b;
      var p := ScaledInside(x, b - a);
      assert e == a + p;
      assert t.exp(a) < t.exp(e) < t.exp(b);
    }
  }

  /** Every warp's `unmap` lands in [0,1] (the curve's laws granted), whatever the range. */
  lemma UnmapInUnit(w: Warp, t: Transcendentals, lo: real, hi: real, v: real)
    requires Lawful(w, t, lo)
    ensures 0.0 <= Unmap(w, t, lo, hi, v) <= 1.0
    ensures v <= lo ==> Unmap(w, t, lo, hi, v) == 0.0
    ensures lo < v && hi <= v ==> Unmap(w, t, lo, hi, v) == 1.0
  {
    if lo < v < hi {
      var d := hi - lo;
      match w
      case Lin =>
        var q := QuotientInUnit(v - lo, d);
      case QuadIn =>
        var q := QuotientInUnit(v - lo, d);
        var r := SqrtOfUnit(t, q);
      case QuadOut =>
        var q := QuotientInUnit(hi - v, d);
        var r := SqrtOfUnit(t, q);
      case Exp =>
        var a, b, c := t.log(lo), t.log(hi), t.log(v);
        assert a < c < b;
        var q := QuotientInUnit(c - a, b - a);
    }
  }

  /** `unmap(map(x)) == x` on [0,1] for every curve, when lo < hi. */
  lemma RoundTrip(w: Warp, t: Transcendentals, lo: real, hi: real, x: real)
    requires Lawful(w, t, lo)
    requires lo < hi && 0.0 <= x <= 1.0
    ensures Unmap(w, t, lo, hi, Map(w, t, lo, hi, x)) == x
  {
    if 0.0 < x < 1.0 {
      match w
      case Lin => LinRoundTrip(t, lo, hi, x);
      case QuadIn => QuadInRoundTrip(t, lo, hi, x);
      case QuadOut => QuadOutRoundTrip(t, lo, hi, x);
      case Exp => ExpRoundTrip(t, lo, hi, x);
    }
  }
  lemma LinRoundTrip(t: Transcendentals, lo: real, hi: real, x: real)
    requires lo < hi && 0.0 < x < 1.0
    ensures Unmap(Lin, t, lo, hi, Map(Lin, t, lo, hi, x)) == x
  {
    var d := hi - lo;
    var p := ScaledInside(x, d);
    assert Map(Lin, t, lo, hi, x) == p + lo;
    MulDiv(x, d);
    assert Unmap(Lin, t, lo, hi, p + lo) == p / d;
  }

  lemma QuadInRoundTrip(t: Transcendentals, lo: real, hi: real, x: real)
    requires SqrtLaw(t) && lo < hi && 0.0 < x < 1.0
    ensures Unmap(QuadIn, t, lo, hi, Map(QuadIn, t, lo, hi, x)) == x
  {
    var d := hi - lo;
    var s := SquareInUnit(x);
    var p := ScaledInside(s, d);
    assert d * x * x == p;
    assert Map(QuadIn, t, lo, hi, x) == p + lo;
    MulDiv(s, d);
    assert Unmap(QuadIn, t, lo, hi, p + lo) == t.sqrt(s);
    SqrtOfSquare(t, x);
  }

  lemma QuadOutRoundTrip(t: Transcendentals, lo: real, hi: real, x: real)
    requires SqrtLaw(t) && lo < hi && 0.0 < x < 1.0
    ensures Unmap(QuadOut, t, lo, hi, Map(QuadOut, t, lo, hi, x)) == x
  {
    var d := hi - lo;
    var y := 1.0 - x;
    var s := SquareInUnit(y);
    var p := ScaledInside(1.0 - s, d);
    assert d * (1.0 - s) == p;
    assert Map(QuadOut, t, lo, hi, x) == p + lo;
    assert hi - (p + lo) == s * d;
    MulDiv(s, d);
    assert Unmap(QuadOut, t, lo, hi, p + lo) == 1.0 - t.sqrt(s);
    SqrtOfSquare(t, y);
  }

  lemma ExpRoundTrip(t: Transcendentals, lo: real, hi: real, x: real)
    requires LogExpLaw(t) && 0.0 < lo < hi && 0.0 < x < 1.0
    ensures Unmap(Exp, t, lo, hi, Map(Exp, t, lo, hi, x)) == x
  {
    var a, b := t.log(lo), t.log(hi);
    assert a < b;
    var p := ScaledInside(x, b - a);
    var e := a + (b - a) * x;
    assert e == a + p;
    var m := t.exp(e);
    assert Map(Exp, t, lo, hi, x) == m;
    assert t.exp(a) < m < t.exp(b);
    assert lo < m < hi;
    assert t.log(m) == e;
    MulDiv(x, b - a);
    assert Unmap(Exp, t, lo, hi, m) == p / (b - a);
  }

  /** `map(unmap(v))` gives back v clamped to [lo, hi]: a value inside the range survives the
      trip through the normalised position unchanged, whatever the curve. */
  lemma MapUnmap(w: Warp, t: Transcendentals, lo: real, hi: real, v: real)
    requires Lawful(w, t, lo) && lo < hi
    ensures Map(w, t, lo, hi, Unmap(w, t, lo, hi, v)) == Clamp(v, lo, hi)
  {
    if lo < v < hi {
      match w
      case Lin => LinMapUnmap(t, lo, hi, v);
      case QuadIn => QuadInMapUnmap(t, lo, hi, v);
      case QuadOut => QuadOutMapUnmap(t, lo, hi, v);
      case Exp => ExpMapUnmap(t, lo, hi, v);
    }
  }

  lemma LinMapUnmap(t: Transcendentals, lo: real, hi: real, v: real)
    requires lo < v < hi
    ensures Map(Lin, t, lo, hi, Unmap(Lin, t, lo, hi, v)) == v
  {
    var d := hi - lo;
    var q := QuotientInUnit(v - lo, d);
    assert Unmap(Lin, t, lo, hi, v) == q;
    DivMul(v - lo, d);
    assert Map(Lin, t, lo, hi, q) == q * d + lo;
  }

  lemma QuadInMapUnmap(t: Transcendentals, lo: real, hi: real, v: real)
    requires SqrtLaw(t) && lo < v < hi
    ensures Map(QuadIn, t, lo, hi, Unmap(QuadIn, t, lo, hi, v)) == v
  {
    var d := hi - lo;
    var q := QuotientInUnit(v - lo, d);
    var r := SqrtOfUnit(t, q);
    assert Unmap(QuadIn, t, lo, hi, v) == r;
    assert r * r == q;
    assert d * r * r == d * q;
    DivMul(v - lo, d);
    assert Map(QuadIn, t, lo, hi, r) == d * r * r + lo;
  }

  lemma QuadOutMapUnmap(t: Transcendentals, lo: real, hi: real, v: real)
    requires SqrtLaw(t) && lo < v < hi
    ensures Map(QuadOut, t, lo, hi, Unmap(QuadOut, t, lo, hi, v)) == v
  {
    var d := hi - lo;
    var q := QuotientInUnit(hi - v, d);
    var r := SqrtOfUnit(t, q);
    var u := 1.0 - r;
    assert Unmap(QuadOut, t, lo, hi, v) == u;
    assert (1.0 - u) * (1.0 - u) == q;
    DivMul(hi - v, d);
    assert d * (1.0 - q) == d - q * d;
    assert Map(QuadOut, t, lo, hi, u) == d * (1.0 - q) + lo;
  }

  lemma ExpMapUnmap(t: Transcendentals, lo: real, hi: real, v: real)
    requires LogExpLaw(t) && 0.0 < lo < v < hi
    ensures Map(Exp, t, lo, hi, Unmap(Exp, t, lo, hi, v)) == v
  {
    var a, b, c := t.log(lo), t.log(hi), t.log(v);
    assert a < c < b;
    var q := QuotientInUnit(c - a, b - a);
    assert Unmap(Exp, t, lo, hi, v) == q;
    DivMul(c - a, b - a);
    assert (b - a) * q == c - a;
    assert Map(Exp, t, lo, hi, q) == t.exp(a + (b - a) * q);
    assert t.exp(c) == v;
  }
}
