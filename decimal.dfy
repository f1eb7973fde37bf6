/**
 * Decimal text of numbers: the digit strings behind `Number.prototype.toFixed` and
 * `Number.prototype.toString`, as far as the two controls rely on them.
 *
 * `toFixed(d)` is modelled exactly over reals for magnitudes below 10^21: the magnitude is
 * shifted d decimal places left and rounded half up to an integer n; the whole digits are
 * those of n with its last d digits dropped, the fraction digits are exactly the last d
 * digits of n (zero-padded), and a negative number gets a leading '-'.
 *
 * Shifts by powers of ten are written as repeated multiplication or division by ten, which
 * keeps every step within linear arithmetic.
 */
module Decimal {
  import opened Numbers

  // The padding the number displays are built from.

  /** `n` copies of `c`. */
  function Spaces(c: char, n: nat): (s: string)
    ensures |s| == n && forall i :: 0 <= i < n ==> s[i] == c
  {
    seq(n, _ => c)
  }

  /** `padding.slice(k)`: what remains after the first k characters (nothing when k is past
      the end). */
  function Slice(s: string, k: nat): (r: string)
    ensures |r| == if k <= |s| then |s| - k else 0
  {
    if k <= |s| then s[k..] else ""
  }

  predicate IsDigit(c: char) {
    '0' <= c <= '9'
  }

  predicate AllDigits(s: seq<char>) {
    forall i :: 0 <= i < |s| ==> IsDigit(s[i])
  }

  function DigitChar(d: nat): (c: char)
    requires d < 10
    ensures IsDigit(c)
  {
    ('0' as int + d) as char
  }

  function DigitValue(c: char): (d: nat)
    requires IsDigit(c)
    ensures d < 10
  {
    c as int - '0' as int
  }

  /** The decimal digits of n, most significant first, without leading zeros ("0" for 0). */
  function Digits(n: nat): (s: seq<char>)
    ensures |s| >= 1 && AllDigits(s)
    decreases n
  {
    if n < 10 then [DigitChar(n)] else Digits(n / 10) + [DigitChar(n % 10)]
  }

  /** The last k digits of n, most significant first, zero-padded on the left. */
  function LowDigits(n: nat, k: nat): (s: seq<char>)
    ensures |s| == k && AllDigits(s)
  {
    if k == 0 then [] else LowDigits(n / 10, k - 1) + [DigitChar(n % 10)]
  }

  /** n with its last k decimal digits dropped (n / 10^k). */
  function DropDigits(n: nat, k: nat): nat {
    if k == 0 then n else DropDigits(n / 10, k - 1)
  }

  /** x * 10^k. */
  function ShiftLeft(x: real, k: nat): (r: real)
    ensures 0.0 <= x ==> 0.0 <= r
  {
    if k == 0 then x else ShiftLeft(x, k - 1) * 10.0
  }

  /** x / 10^k. */
  function ShiftRight(x: real, k: nat): (r: real)
    ensures 0.0 <= x ==> 0.0 <= r
  {
    if k == 0 then x else ShiftRight(x, k - 1) / 10.0
  }

  /** The number a digit string spells. */
  function ValueOf(s: seq<char>): nat
    requires AllDigits(s)
  {
    if |s| == 0 then 0 else 10 * ValueOf(s[..|s| - 1]) + DigitValue(s[|s| - 1])
  }

  /** Reading the digits of n gives back n. */
  lemma {:induction false} DigitsRoundTrip(n: nat)
    ensures ValueOf(Digits(n)) == n
    decreases n
  {
    var s := Digits(n);
    if n >= 10 {
      DigitsRoundTrip(n / 10);
      assert s[..|s| - 1] == Digits(n / 10);
    }
  }

  /** The whole digits followed by the last k digits spell n again. */
  lemma {:induction false} SplitRoundTrip(n: nat, k: nat)
    ensures ValueOf(Digits(DropDigits(n, k)) + LowDigits(n, k)) == n
  {
    var s := Digits(DropDigits(n, k)) + LowDigits(n, k);
    if k == 0 {
      DigitsRoundTrip(n);
      assert s == Digits(n);
    } else {
      SplitRoundTrip(n / 10, k - 1);
      assert s[..|s| - 1] == Digits(DropDigits(n / 10, k - 1)) + LowDigits(n / 10, k - 1);
    }
  }

  /** n has exactly k digits when dropping k of them leaves 0 but dropping k - 1 does not
      (or k is 1). */
  lemma {:induction false} DigitCount(n: nat, k: nat)
    requires k >= 1 && DropDigits(n, k) == 0
    requires k == 1 || DropDigits(n, k - 1) >= 1
    ensures |Digits(n)| == k
    decreases k
  {
    if k > 1 {
      DigitCount(n / 10, k - 1);
    }
  }

  /** Dropping k digits is dropping k - 1 digits and then one more. */
  lemma {:induction false} DropDigitsStep(n: nat, k: nat)
    requires k > 0
    ensures DropDigits(n, k) == DropDigits(n, k - 1) / 10
  {
    if k > 1 {
      DropDigitsStep(n / 10, k - 1);
    }
  }

  /** The integer part of y / 10 is the integer part of y with its last digit dropped. */
  lemma FloorDivTen(y: real)
    requires 0.0 <= y
    ensures (y / 10.0).Floor == y.Floor / 10
  {
    var m := y.Floor;
    var q := m / 10;
    assert 10 * q <= m < 10 * q + 10;
    assert q as real <= y / 10.0 < q as real + 1.0;
  }

  /** The integer part of x / 10^k is the integer part of x with k digits dropped. */
  lemma {:induction false} ShiftRightFloor(x: real, k: nat)
    requires 0.0 <= x
    ensures ShiftRight(x, k).Floor == DropDigits(x.Floor, k)
  {
    if k > 0 {
      ShiftRightFloor(x, k - 1);
      FloorDivTen(ShiftRight(x, k - 1));
      DropDigitsStep(x.Floor, k);
    }
  }

  /** `toFixed`'s result: a sign flag, the whole digits and the fraction digits. */
  datatype Fixed = Fixed(negative: bool, whole: seq<char>, fraction: seq<char>)

  /** The text of a `Fixed`: '-' when negative, the whole digits, then '.' and the fraction
      digits when there are any. */
  function Render(f: Fixed): (s: string)
    ensures |s| == (if f.negative then 1 else 0) + |f.whole| + (if |f.fraction| > 0 then 1 + |f.fraction| else 0)
  {
    (if f.negative then "-" else "") + f.whole + (if |f.fraction| > 0 then "." + f.fraction else "")
  }

  /** |x| * 10^d rounded half up: the integer whose digits `x.toFixed(d)` prints. */
  function Scaled(x: real, d: nat): nat {
    Round(ShiftLeft(Abs(x), d))
  }

  /** `x.toFixed(d)` for |x| < 10^21. */
  function ToFixed(x: real, d: nat): (r: Fixed)
    ensures r.negative <==> x < 0.0
    ensures |r.fraction| == d && |r.whole| >= 1
    ensures AllDigits(r.whole) && AllDigits(r.fraction)
  {
    var n := Scaled(x, d);
    Fixed(x < 0.0, Digits(DropDigits(n, d)), LowDigits(n, d))
  }

  /** The printed digits, read back without the point, spell the rounded scaled magnitude. */
  lemma ToFixedSpellsScaled(x: real, d: nat)
    ensures ValueOf(ToFixed(x, d).whole + ToFixed(x, d).fraction) == Scaled(x, d)
  {
    SplitRoundTrip(Scaled(x, d), d);
  }

  /** `toFixed` prints the same digits for x and -x; only the sign differs. */
  lemma ToFixedAbs(x: real, d: nat)
    ensures ToFixed(Abs(x), d) == ToFixed(x, d).(negative := false)
  {
    assert Abs(Abs(x)) == Abs(x);
  }

  /** The smallest k <= 20 for which x * 10^k is whole, searched upwards from `from`;
      21 when there is none. */
  function FractionDigitsFrom(x: real, from: nat): (k: nat)
    requires from <= 21
    ensures from <= k <= 21
    ensures k <= 20 ==> IsWhole(ShiftLeft(x, k))
    ensures forall j :: from <= j < k && j <= 20 ==> !IsWhole(ShiftLeft(x, j))
    decreases 21 - from
  {
    if from == 21 then 21
    else if IsWhole(ShiftLeft(x, from)) then from
    else FractionDigitsFrom(x, from + 1)
  }

  /** The number of digits after the decimal point in `x.toString()`, for a number whose
      decimal expansion ends within 20 digits: the least k with x * 10^k whole. */
  function FractionDigits(x: real): (k: nat)
    ensures k <= 21
    ensures k <= 20 ==> IsWhole(ShiftLeft(x, k))
    ensures forall j :: 0 <= j < k && j <= 20 ==> !IsWhole(ShiftLeft(x, j))
  {
    FractionDigitsFrom(x, 0)
  }

  /** `1 / Math.pow(10, p)`. */
  function UnitOf(p: nat): (r: real)
    ensures 0.0 < r <= 1.0
    ensures p > 0 ==> r < 1.0
  {
    if p == 0 then 1.0 else UnitOf(p - 1) / 10.0
  }

  /** Shifting 10^-p left by j <= p places gives 10^-(p - j). */
  lemma {:induction false} ShiftUnit(p: nat, j: nat)
    requires j <= p
    ensures ShiftLeft(UnitOf(p), j) == UnitOf(p - j)
  {
    if j > 0 {
      ShiftUnit(p, j - 1);
      assert UnitOf(p - j + 1) == UnitOf(p - j) / 10.0;
    }
  }

  /** 10^-p has exactly p fraction digits, so a zero step replaced by 10^-p keeps the
      precision it was derived from. */
  lemma FractionDigitsOfUnit(p: nat)
    requires p <= 20
    ensures FractionDigits(UnitOf(p)) == p
  {
    var k := FractionDigits(UnitOf(p));
    ShiftUnit(p, p);
    assert IsWhole(ShiftLeft(UnitOf(p), p));
    if k < p {
      ShiftUnit(p, k);
      UnitNotWhole(p - k);
    }
  }

  /** 10^-q for q > 0 lies strictly between 0 and 1, so it is not whole. */
  lemma UnitNotWhole(q: nat)
    requires q > 0
    ensures !IsWhole(UnitOf(q))
  {
    var r := UnitOf(q);
    assert 0.0 < r < 1.0;
    assert r.Floor == 0;
  }
}
