/**
 * The number display of `CVSlider` (`formatNumberMemoize` in cvslider.js): a sign slot that
 * always exists, a slice of a padding string, and the magnitude printed with as many fraction
 * digits as still fit. The integer digits are counted by dividing by ten until the value
 * drops below one.
 */
module CvFormat {
  import opened Base
  import opened Numbers
  import opened Decimal
  import Setup

  const EnSpace: char := '\U{2002}'

  /** The closure `formatNumberMemoize` returns, by the constants it captures. */
  datatype Formatter = Formatter(sp: char, maxPrecision: nat, width: int, padding: string)

  /** `numCharacters || 8`. */
  function OrDefault(numCharacters: int): int {
    if numCharacters == 0 then 8 else numCharacters
  }

  /** The maximum precision: the argument unless it is null, then 3. */
  function PrecisionOr(maxPrecision: Option<nat>): nat {
    if maxPrecision.Some? then maxPrecision.value else 3
  }

  /** The digits budget: `max(numCharacters || 8, 2)`, less one for the point when there may
      be fraction digits. */
  function Width(numCharacters: int, maxPrecision: Option<nat>): (n: int)
    ensures n >= 1
    ensures n + (if PrecisionOr(maxPrecision) > 0 then 1 else 0) == IntMax(OrDefault(numCharacters), 2)
  {
    IntMax(OrDefault(numCharacters), 2) - (if PrecisionOr(maxPrecision) > 0 then 1 else 0)
  }

  /** The formatter the arguments produce. */
  function FormatterOf(numCharacters: int, maxPrecision: Option<nat>, isFixedWidth: bool): (f: Formatter)
    ensures f.sp == if isFixedWidth then EnSpace else ' '
    ensures f.maxPrecision == PrecisionOr(maxPrecision)
    ensures f.width >= 1 && |f.padding| == f.width
    ensures forall i :: 0 <= i < |f.padding| ==> f.padding[i] == f.sp
  {
    var sp := if isFixedWidth then EnSpace else ' ';
    var w := Width(numCharacters, maxPrecision);
    Formatter(sp, PrecisionOr(maxPrecision), w, Spaces(sp, w))
  }

  /** `formatNumberMemoize`: builds the padding string with a loop and captures the rest. */
  method FormatNumberMemoize(numCharacters: int, maxPrecision: Option<nat>, isFixedWidth: bool) returns (f: Formatter)
    ensures f == FormatterOf(numCharacters, maxPrecision, isFixedWidth)
  {
    var sp := if isFixedWidth then EnSpace else ' ';
    var p := if maxPrecision != None then maxPrecision.value else 3;
    var n := IntMax(if numCharacters == 0 then 8 else numCharacters, 2);
    if p != 0 {
      n := n - 1;
    }
    var padding := "";
    while |padding| < n
      invariant |padding| <= n
      invariant padding == Spaces(sp, |padding|)
    {
      padding := padding + [sp];
    }
    f := Formatter(sp, p, n, padding);
  }

  /** The integer digits of v: one below one, else the digit count of its whole part. */
  function Places(v: real): (n: nat)
    ensures n >= 1
  {
    if Abs(v) < 1.0 then 1 else |Decimal.Digits(Abs(v).Floor)|
  }

  /** The fraction digits kept: `min(max(width - places, 0), maxPrecision)`. */
  function Precision(width: int, places: nat, maxPrecision: nat): (r: nat)
    ensures r <= maxPrecision
    ensures places + r <= width || r == 0
    ensures places + maxPrecision <= width ==> r == maxPrecision
  {
    IntMin(IntMax(width - places, 0), maxPrecision)
  }

  /** The formatted text of v. */
  function FormatOf(f: Formatter, v: real): string {
    var places := Places(v);
    var precision := Precision(f.width, places, f.maxPrecision);
    [if v < 0.0 then '-' else f.sp] + Slice(f.padding, places + precision) + Render(ToFixed(Abs(v), precision))
  }

  /** The closure's digit count: one below one, otherwise divide by ten until the value
      drops below one. */
  method CountPlaces(v: real) returns (places: nat)
    ensures places == Places(v)
  {
    var absVal := Abs(v);
    places := 0;
    if absVal < 1.0 {
      places := 1;
    } else {
      ghost var n := Abs(v).Floor;
      while absVal >= 1.0
        invariant absVal == ShiftRight(Abs(v), places)
        invariant places > 0 ==> DropDigits(n, places - 1) >= 1
        invariant places == 0 ==> absVal >= 1.0
        decreases absVal.Floor
      {
        ShiftRightFloor(Abs(v), places);
        FloorDivTen(absVal);
        absVal := absVal / 10.0;
        places := places + 1;
      }
      ShiftRightFloor(Abs(v), places);
      DigitCount(n, places);
    }
  }

  /** The closure itself: the sign slot, the padding left over, and the magnitude. */
  method Format(f: Formatter, v: real) returns (s: string)
    ensures s == FormatOf(f, v)
  {
    var sign := if v < 0.0 then '-' else f.sp;
    var places := CountPlaces(v);
    var precision := IntMin(IntMax(f.width - places, 0), f.maxPrecision);
    s := [sign] + Slice(f.padding, places + precision) + Render(ToFixed(Abs(v), precision));
  }

  /** The first character is '-' for a negative value and the pad character otherwise. */
  lemma FormatSign(f: Formatter, v: real)
    ensures |FormatOf(f, v)| > 0 && FormatOf(f, v)[0] == (if v < 0.0 then '-' else f.sp)
  {
  }

  /** When the integer digits fit the budget, rounding adds no digit, and either some fraction
      digit is shown or none could be, the text is one sign slot plus
      `max(numCharacters || 8, 2)` characters. */
  lemma FormatWidth(numCharacters: int, maxPrecision: Option<nat>, isFixedWidth: bool, v: real)
    requires var f := FormatterOf(numCharacters, maxPrecision, isFixedWidth);
      var precision := Precision(f.width, Places(v), f.maxPrecision);
      Places(v) <= f.width && |ToFixed(Abs(v), precision).whole| == Places(v) &&
      (precision > 0 || f.maxPrecision == 0)
    ensures |FormatOf(FormatterOf(numCharacters, maxPrecision, isFixedWidth), v)| == 1 + IntMax(OrDefault(numCharacters), 2)
  {
    var f := FormatterOf(numCharacters, maxPrecision, isFixedWidth);
    var precision := Precision(f.width, Places(v), f.maxPrecision);
    var d := ToFixed(Abs(v), precision);
    assert |d.fraction| == precision && !d.negative;
  }

  /** With the intended default width, every value with no more integer digits than the
      maximum's `toFixed()` text prints as one sign slot plus exactly that width (absent a
      rounding carry). */
  lemma DefaultWidthFits(max: real, p: nat, min: real, isFixedWidth: bool, v: real)
    requires var f := FormatterOf(Setup.DefaultNumCharacters(max, p, min), Some(p), isFixedWidth);
      Places(v) <= Setup.WholeLength(max) && |ToFixed(Abs(v), Precision(f.width, Places(v), p)).whole| == Places(v)
    ensures var n := Setup.DefaultNumCharacters(max, p, min);
      |FormatOf(FormatterOf(n, Some(p), isFixedWidth), v)| == 1 + n
  {
    var n := Setup.DefaultNumCharacters(max, p, min);
    var f := FormatterOf(n, Some(p), isFixedWidth);
    assert f.width >= Setup.WholeLength(max) + p;
    assert Precision(f.width, Places(v), p) == p;
    FormatWidth(n, Some(p), isFixedWidth, v);
  }

  /** The whole digits of 100 and of 5. */
  lemma HundredDigits()
    ensures Decimal.Digits(100) == "100" && Decimal.Digits(5) == "5"
  {
    assert Decimal.Digits(1) == "1";
    assert Decimal.Digits(10) == "10";
  }

  /** `toFixed(0)` of 100 and of 5. */
  lemma HundredToFixed()
    ensures Render(ToFixed(100.0, 0)) == "100" && Render(ToFixed(5.0, 0)) == "5"
  {
    HundredDigits();
    assert Round(100.0) == 100 && Round(5.0) == 5;
    assert ToFixed(100.0, 0) == Fixed(false, "100", []);
    assert ToFixed(5.0, 0) == Fixed(false, "5", []);
  }

  /** As written, a slider over 0..100 with step 1 (so no fraction digits) gets the default
      width 2, where the intended rule gives 3; 100 then prints one character wider than 5,
      so the display is not of fixed width. */
  lemma HundredOverflows(isFixedWidth: bool)
    ensures Setup.DefaultNumCharacters(100.0, 0, 0.0) == 3
    ensures var n := Setup.DefaultNumCharactersAsWritten(100.0, 0, 0.0);
      var f := FormatterOf(n, Some(0), isFixedWidth);
      n == 2 && |FormatOf(f, 100.0)| == |FormatOf(f, 5.0)| + 1
  {
    HundredDigits();
    HundredToFixed();
    assert Setup.WholeLength(100.0) == 3;
    var f := FormatterOf(2, Some(0), isFixedWidth);
    assert f.width == 2 && |f.padding| == 2;
    assert Places(100.0) == 3 && Places(5.0) == 1;
    assert Precision(2, 3, 0) == 0 && Precision(2, 1, 0) == 0;
    assert |FormatOf(f, 100.0)| == 1 + 0 + 3;
    assert |FormatOf(f, 5.0)| == 1 + 1 + 1;
  }

  /** The digits of 1234. */
  lemma DigitsExample()
    ensures Decimal.Digits(1234) == "1234"
  {
    assert Decimal.Digits(1) == "1";
    assert Decimal.Digits(12) == "12";
    assert Decimal.Digits(123) == "123";
  }

  /** -1234.5678 has four integer digits. */
  lemma PlacesExample()
    ensures Places(-1234.5678) == 4
  {
    assert Abs(-1234.5678) == 1234.5678;
    assert (1234.5678).Floor == 1234;
    DigitsExample();
  }

  /** 1234.5678 scaled to three places and rounded half up is 1234568. */
  lemma ScaledExample()
    ensures Scaled(1234.5678, 3) == 1234568
  {
    assert ShiftLeft(1234.5678, 1) == 12345.678;
    assert ShiftLeft(1234.5678, 2) == 123456.78;
    assert ShiftLeft(1234.5678, 3) == 1234567.8;
    assert (1234567.8 + 0.5).Floor == 1234568;
  }

  /** 1234568 splits into the whole part 1234 and the three fraction digits "568". */
  lemma SplitExample()
    ensures DropDigits(1234568, 3) == 1234 && LowDigits(1234568, 3) == "568"
  {
    assert LowDigits(1234, 0) == [];
    assert LowDigits(12345, 1) == "5";
    assert LowDigits(123456, 2) == "56";
  }

  /** 1234.5678 to three places prints "1234.568". */
  lemma ToFixedExample()
    ensures Render(ToFixed(1234.5678, 3)) == "1234.568"
  {
    ScaledExample();
    SplitExample();
    DigitsExample();
    assert ToFixed(1234.5678, 3) == Fixed(false, "1234", "568");
  }

  /** Width 8 and precision 3 leave seven plain-space characters of padding. */
  lemma FormatterExample()
    ensures FormatterOf(8, Some(3), false) == Formatter(' ', 3, 7, Spaces(' ', 7))
  {
  }

  /** A value with four integer digits under a width of 8 and precision 3 is printed with
      three fraction digits and no padding: "-1234.568". */
  lemma FormatExample()
    ensures FormatOf(FormatterOf(8, Some(3), false), -1234.5678) == "-1234.568"
  {
    FormatterExample();
    PlacesExample();
    ToFixedExample();
    var f := Formatter(' ', 3, 7, Spaces(' ', 7));
    assert Precision(7, 4, 3) == 3;
    assert Slice(f.padding, 7) == [];
    assert Abs(-1234.5678) == 1234.5678;
    assert FormatOf(f, -1234.5678) == ['-'] + [] + "1234.568";
  }
}
