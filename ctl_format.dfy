/**
 * The number display of `Ctl` (`formatNumberMemoize` in ctl.js): a fixed-width string made of
 * an optional sign slot, a slice of a padding string, and the magnitude printed with as many
 * fraction digits as still fit.
 *
 * The formatter's options object is modelled by its numeric fields and a map of its flags,
 * so that a flag read under a key the constructor never set reads as `undefined`.
 */
module CtlFormat {
  import opened Numbers
  import opened Decimal
  import opened Setup

  const MinChars: int := 3
  const DefaultChars: int := 8
  const EnSpace: char := '\U{2002}'

  /** The options object handed to `formatNumberMemoize`. */
  datatype FormatOptions = FormatOptions(numCharacters: int, maxPrecision: nat, flags: map<string, bool>)

  /** A flag of the options object: false when it is missing. */
  function Flag(o: FormatOptions, key: string): bool {
    key in o.flags && o.flags[key]
  }

  /** The closure `formatNumberMemoize` returns, by the constants it captures. */
  datatype Formatter = Formatter(maxPrecision: nat, showSign: bool, sp: char, width: int, padding: string)

  /** The digits budget: `max(numCharacters || 8, 3)`, less one for the sign slot. */
  function Width(o: FormatOptions): (n: int)
    ensures n >= 2
    ensures n + (if Flag(o, "showSign") then 1 else 0) == IntMax(if o.numCharacters == 0 then DefaultChars else o.numCharacters, MinChars)
  {
    IntMax(if o.numCharacters == 0 then DefaultChars else o.numCharacters, MinChars) - (if Flag(o, "showSign") then 1 else 0)
  }

  /** The pad character: an en space when `isFixedWidth` is set, else a plain space. */
  function PadChar(o: FormatOptions): char {
    if Flag(o, "isFixedWidth") then EnSpace else ' '
  }

  /** The formatter a set of options produces. */
  function FormatterOf(o: FormatOptions): (f: Formatter)
    ensures f.width >= 2 && |f.padding| == f.width
    ensures forall i :: 0 <= i < |f.padding| ==> f.padding[i] == f.sp
  {
    var w := Width(o);
    Formatter(o.maxPrecision, Flag(o, "showSign"), PadChar(o), w, Spaces(PadChar(o), w))
  }

  /** `formatNumberMemoize`: builds the padding string with a loop and captures the rest. */
  method FormatNumberMemoize(o: FormatOptions) returns (f: Formatter)
    ensures f == FormatterOf(o)
  {
    var sp := PadChar(o);
    var n := Width(o);
    var padding := "";
    while |padding| < n
      invariant |padding| <= n
      invariant padding == Spaces(sp, |padding|)
    {
      padding := padding + [sp];
    }
    f := Formatter(o.maxPrecision, Flag(o, "showSign"), sp, n, padding);
  }

  /** The fraction digits kept: `max(0, min(width - places - 1, maxPrecision))`. */
  function Precision(width: int, places: nat, maxPrecision: nat): (r: nat)
    ensures r <= maxPrecision
    ensures r > 0 ==> places + r + 1 <= width
    ensures places + 1 + maxPrecision <= width ==> r == maxPrecision
    ensures r == 0 ==> maxPrecision == 0 || width <= places + 1
  {
    IntMax(0, IntMin(width - places - 1, maxPrecision))
  }

  /** Fewer fraction digits for more integer digits. */
  lemma PrecisionShrinks(width: int, a: nat, b: nat, maxPrecision: nat)
    requires a <= b
    ensures Precision(width, b, maxPrecision) <= Precision(width, a, maxPrecision)
  {
  }

  /** The integer digit count `toFixed(maxPrecision)` shows for v. */
  function Places(f: Formatter, v: real): nat {
    |ToFixed(v, f.maxPrecision).whole|
  }

  /** The formatted text of v. */
  function Format(f: Formatter, v: real): (s: string)
  {
    var parts := ToFixed(v, f.maxPrecision);
    var sign := if f.showSign then (if parts.negative then "-" else [f.sp]) else "";
    var places := |parts.whole|;
    var precision := Precision(f.width, places, f.maxPrecision);
    var decimal := if precision > 0 then 1 else 0;
    sign + Slice(f.padding, places + precision + decimal) + Render(ToFixed(Abs(v), precision))
  }

  /** The digits the formatter prints for v, after the sign and padding. */
  function Digits(f: Formatter, v: real): Fixed {
    ToFixed(Abs(v), Precision(f.width, Places(f, v), f.maxPrecision))
  }

  /** With a sign slot, the first character is '-' for a negative value and the pad
      character otherwise; without one, a value and its negation print the same text. */
  lemma FormatSign(f: Formatter, v: real)
    ensures f.showSign ==> |Format(f, v)| > 0 && Format(f, v)[0] == (if v < 0.0 then '-' else f.sp)
    ensures !f.showSign ==> Format(f, v) == Format(f, -v)
  {
    if !f.showSign {
      ToFixedAbs(v, f.maxPrecision);
      ToFixedAbs(-v, f.maxPrecision);
      assert Abs(-v) == Abs(v);
      assert Places(f, v) == Places(f, -v);
    }
  }

  /** When the integer digits fit the budget and rounding to fewer digits adds no digit, the
      text is exactly `max(numCharacters || 8, 3)` characters long. */
  lemma FormatWidth(o: FormatOptions, v: real)
    requires Places(FormatterOf(o), v) <= FormatterOf(o).width
    requires |Digits(FormatterOf(o), v).whole| == Places(FormatterOf(o), v)
    ensures |Format(FormatterOf(o), v)| == IntMax(if o.numCharacters == 0 then DefaultChars else o.numCharacters, MinChars)
  {
    var f := FormatterOf(o);
    var places := Places(f, v);
    var precision := Precision(f.width, places, f.maxPrecision);
    var d := Digits(f, v);
    assert |d.fraction| == precision && !d.negative;
    assert |Render(d)| == places + (if precision > 0 then 1 + precision else 0);
  }

  /** The formatter options `Ctl` builds, as written: the flag is stored as `fixedWidth`. */
  function CtlOptionsAsWritten(numCharacters: int, maxPrecision: nat, min: real, vertical: bool): FormatOptions {
    FormatOptions(numCharacters, maxPrecision, map["showSign" := min < 0.0, "fixedWidth" := !vertical])
  }

  /** As written, the formatter never sees the flag it reads, so a horizontal slider pads
      with plain spaces. */
  lemma FixedWidthFlagIgnored(numCharacters: int, maxPrecision: nat, min: real, vertical: bool)
    ensures PadChar(CtlOptionsAsWritten(numCharacters, maxPrecision, min, vertical)) == ' '
  {
  }

  /** The formatter options as evidently intended: the flag under the key the formatter reads. */
  function CtlOptions(numCharacters: int, maxPrecision: nat, min: real, vertical: bool): (o: FormatOptions)
    ensures PadChar(o) == (if vertical then ' ' else EnSpace)
    ensures Flag(o, "showSign") <==> min < 0.0
  {
    FormatOptions(numCharacters, maxPrecision, map["showSign" := min < 0.0, "isFixedWidth" := !vertical])
  }

  /** The intended default width holds every value whose `toFixed()` text is no longer than
      the maximum's: such a value is printed at exactly the configured width (absent a
      rounding carry). */
  lemma DefaultWidthFits(max: real, p: nat, min: real, vertical: bool, v: real)
    requires var f := FormatterOf(CtlOptions(DefaultNumCharacters(max, p, min), p, min, vertical));
      Places(f, v) <= WholeLength(max) && |Digits(f, v).whole| == Places(f, v)
    ensures var n := DefaultNumCharacters(max, p, min);
      |Format(FormatterOf(CtlOptions(n, p, min, vertical)), v)| == IntMax(n, MinChars)
  {
    var n := DefaultNumCharacters(max, p, min);
    var o := CtlOptions(n, p, min, vertical);
    assert Width(o) >= WholeLength(max);
    FormatWidth(o, v);
  }

  /** As written, the rotate preset's default width of 3 cannot hold -180: the display
      is four characters wide. */
  lemma RotateOverflows(vertical: bool)
    ensures var n := DefaultNumCharactersAsWritten(180.0, 0, -180.0);
      n == 3 && |Format(FormatterOf(CtlOptionsAsWritten(n, 0, -180.0, vertical)), -180.0)| == 4
  {
    RotateDefaultWidth();
    var o := CtlOptionsAsWritten(3, 0, -180.0, vertical);
    var f := FormatterOf(o);
    assert f.width == 2;
    assert Round(180.0) == 180;
    assert Decimal.Digits(180) == Decimal.Digits(18) + ['0'];
    assert Decimal.Digits(18) == Decimal.Digits(1) + ['8'];
    assert |ToFixed(-180.0, 0).whole| == 3;
    assert |Render(ToFixed(Abs(-180.0), 0))| == 3;
  }
}
