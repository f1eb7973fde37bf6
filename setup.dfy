/**
 * What both constructors derive from the merged options before the setters exist: the
 * maximum precision (fraction digits of the step, or the default precision), the default
 * width of the number display, the step that replaces a zero step, and the starting state,
 * which is the `value` setter applied to the configured value.
 */
module Setup {
  import opened Base
  import opened Numbers
  import opened Decimal
  import opened Warps
  import opened Options
  import opened Control

  /** The constructor's reading of the merged options. */
  datatype Config = Config(
    min: real, max: real, step: real, value: real, warp: Warp,
    maxPrecision: nat, numCharacters: int, vertical: bool)

  /** A numeric option, or the fallback when the option holds no number. */
  function NumberOr(m: Options, k: string, fallback: real): real {
    var v := Lookup(m, k);
    if v.Num? then v.x else fallback
  }

  /** A count option (a precision or a width): a whole non-negative number, or the fallback. */
  function CountOr(m: Options, k: string, fallback: nat): nat {
    var v := Lookup(m, k);
    if v.Num? && 0.0 <= v.x && IsWhole(v.x) then v.x.Floor else fallback
  }

  /** `maxPrecision`: the option when given, else the number of digits after the point in the
      step's text when the step is not zero, else `defaultPrecision`. */
  function MaxPrecision(m: Options, step: real): (p: nat)
    ensures Lookup(m, "maxPrecision").Undefined? && step != 0.0 && FractionDigits(step) <= 20 ==>
      IsWhole(ShiftLeft(step, p)) && forall j :: 0 <= j < p ==> !IsWhole(ShiftLeft(step, j))
  {
    if Lookup(m, "maxPrecision").Undefined? then
      if step != 0.0 then FractionDigits(step) else CountOr(m, "defaultPrecision", 3)
    else CountOr(m, "maxPrecision", 3)
  }

  /** `if (!step) step = 1 / Math.pow(10, maxPrecision)`. */
  function EffectiveStep(step: real, p: nat): (r: real)
    ensures r != 0.0
    ensures step != 0.0 ==> r == step
  {
    if step == 0.0 then UnitOf(p) else step
  }

  /** The step that replaces a zero step has exactly `maxPrecision` fraction digits, so
      deriving the precision again from it gives the same precision. */
  lemma ReplacementStepPrecision(p: nat)
    requires p <= 20
    ensures FractionDigits(EffectiveStep(0.0, p)) == p
  {
    FractionDigitsOfUnit(p);
  }

  /** The length of `max.toFixed()`. */
  function WholeLength(max: real): nat {
    |Render(ToFixed(max, 0))|
  }

  /** The default width as written: `Math.min(max.toFixed().length, 2)`, then room for the
      point and the fraction digits, then room for a sign when min < 0. */
  function DefaultNumCharactersAsWritten(max: real, p: nat, min: real): (n: nat)
    ensures n <= 2 + (if p > 0 then 1 + p else 0) + (if min < 0.0 then 1 else 0)
  {
    IntMin(WholeLength(max), 2) + (if p > 0 then 1 + p else 0) + (if min < 0.0 then 1 else 0)
  }

  /** The default width as evidently intended: room for all of `max.toFixed()` (at least two
      characters), the point and fraction digits, and a sign when min < 0. */
  function DefaultNumCharacters(max: real, p: nat, min: real): (n: nat)
    ensures n >= WholeLength(max) + (if p > 0 then 1 + p else 0) + (if min < 0.0 then 1 else 0)
    ensures n >= 2
  {
    IntMax(WholeLength(max), 2) + (if p > 0 then 1 + p else 0) + (if min < 0.0 then 1 else 0)
  }

  /** The rotate preset (max 180, step 1, so no fraction digits, and min < 0): as written the
      default width is 3, one less than the 4 characters "-180" needs. */
  lemma RotateDefaultWidth()
    ensures DefaultNumCharactersAsWritten(180.0, 0, -180.0) == 3
    ensures DefaultNumCharacters(180.0, 0, -180.0) == 4
  {
    assert Round(180.0) == 180;
    assert DropDigits(180, 0) == 180;
    assert Digits(180) == Digits(18) + ['0'];
    assert Digits(18) == Digits(1) + ['8'];
    assert WholeLength(180.0) == 3;
  }

  /** `numCharacters`: the option when it is a non-zero count, else the default width. */
  function NumCharacters(m: Options, max: real, p: nat, min: real): (n: int)
    ensures CountOr(m, "numCharacters", 0) == 0 ==> n == DefaultNumCharacters(max, p, min)
    ensures n >= 1
  {
    var given := CountOr(m, "numCharacters", 0);
    if given == 0 then DefaultNumCharacters(max, p, min) else given
  }

  /** Everything the constructor reads from the merged options, with the warp already
      validated. */
  function ConfigOf(m: Options, warp: Warp): (c: Config)
    ensures c.step != 0.0
    ensures c.warp == warp
    ensures Lookup(m, "min").Num? ==> c.min == Lookup(m, "min").x
    ensures Lookup(m, "max").Num? ==> c.max == Lookup(m, "max").x
    ensures Lookup(m, "value").Num? ==> c.value == Lookup(m, "value").x
    ensures Lookup(m, "step").Num? && Lookup(m, "step").x != 0.0 ==> c.step == Lookup(m, "step").x
  {
    var min := NumberOr(m, "min", 0.0);
    var max := NumberOr(m, "max", 1.0);
    var step := NumberOr(m, "step", 0.0);
    var p := MaxPrecision(m, step);
    Config(min, max, EffectiveStep(step, p), NumberOr(m, "value", 0.0), warp, p,
      NumCharacters(m, max, p, min), Lookup(m, "direction") == Text("vertical"))
  }

  /** Options that leave the step at 0 with the default precision of 3: the step becomes
      a thousandth and the precision 3. */
  lemma ZeroStepConfig(m: Options, w: Warp)
    requires Lookup(m, "step") == Num(0.0) && Lookup(m, "maxPrecision") == Undefined
    requires Lookup(m, "defaultPrecision") == Num(3.0)
    ensures ConfigOf(m, w).step == 0.001 && ConfigOf(m, w).maxPrecision == 3
  {
    assert IsWhole(3.0) by {
      assert (3.0).Floor == 3;
    }
    assert MaxPrecision(m, 0.0) == 3;
    assert UnitOf(3) == 0.001;
  }

  /** The state after construction: `this.value = value` runs the `value` setter on the
      configured value (the provisional normal is overwritten by it). */
  function Initial(c: Config, t: Transcendentals): (s: Slider)
    ensures s.min == c.min && s.max == c.max && s.step == c.step && s.warp == c.warp
    ensures c.min <= c.max ==> c.min <= s.value <= c.max
    ensures c.max < c.min ==> s.value == c.max
    ensures Coherent(s, t)
  {
    ValueSet(Slider(c.min, c.max, c.step, c.value, 0.0, c.warp), t, Number(c.value)).value.next
  }

  /** A configured value already in range and on the step grid is kept as it is. */
  lemma InitialKeepsValue(c: Config, t: Transcendentals)
    requires c.min <= c.value <= c.max && OnGrid(c.value, c.step)
    ensures Initial(c, t).value == c.value
  {
    SnapOnGrid(c.value, c.step);
  }
}
