/**
 * The value state both sliders keep in their constructor closure (`min`, `max`, `step`,
 * `value`, `normal`, `warp`) and what each validated property setter does to it.
 *
 * A setter is modelled as a transition from one `Slider` state to the next. It either fails
 * (the setter throws and nothing changes) or yields the next state together with whether the
 * setter calls `update()`, i.e. whether the listeners run.
 */
module Control {
  import opened Base
  import opened Numbers
  import opened Warps

  /** A setter's argument after string coercion: a number, or something that parses to NaN. */
  datatype Input = Number(x: real) | NotANumber

  /** The messages of the errors the setters throw. */
  datatype SetterError = InvalidInput | InvalidMinimum | InvalidMaximum | InvalidStep

  datatype Slider = Slider(min: real, max: real, step: real, value: real, normal: real, warp: Warp)

  /** The next state, and whether the setter calls `update()`. */
  datatype Outcome = Outcome(next: Slider, changed: bool)

  /** `normal` is the current warp's `unmap` of `value`. */
  predicate Coherent(s: Slider, t: Transcendentals) {
    s.normal == Unmap(s.warp, t, s.min, s.max, s.value)
  }

  /** `if (step) x = Math.round(x / step) * step`: a zero step leaves x alone. */
  function Snap(x: real, step: real): (r: real)
    ensures step == 0.0 ==> r == x
    ensures Abs(r - x) <= Abs(step) / 2.0
  {
    if step == 0.0 then x else Quantize(x, step)
  }

  /** The `value` setter: round to the step, clamp into [min, max], re-derive `normal`;
      `update()` runs when the value changed. */
  function ValueSet(s: Slider, t: Transcendentals, input: Input): (r: Result<Outcome, SetterError>)
    ensures r.Failure? <==> input.NotANumber?
    ensures r.Failure? ==> r.error == InvalidInput
    ensures r.Success? ==> r.value.next == s.(value := r.value.next.value, normal := r.value.next.normal)
    ensures r.Success? && s.min <= s.max ==> s.min <= r.value.next.value <= s.max
    ensures r.Success? ==> Coherent(r.value.next, t)
    ensures r.Success? ==> (r.value.changed <==> r.value.next.value != s.value)
  {
    match input
    case NotANumber => Failure(InvalidInput)
    case Number(x) =>
      var v := Clamp(Snap(x, s.step), s.min, s.max);
      Success(Outcome(s.(value := v, normal := Unmap(s.warp, t, s.min, s.max, v)), v != s.value))
  }

  /** The `normal` setter: clamp into [0,1], map to a value, round that to the step (without
      clamping it again), re-derive `normal`; `update()` runs when `normal` changed. */
  function NormalSet(s: Slider, t: Transcendentals, input: Input): (r: Result<Outcome, SetterError>)
    ensures r.Failure? <==> input.NotANumber?
    ensures r.Failure? ==> r.error == InvalidInput
    ensures r.Success? ==> r.value.next == s.(value := r.value.next.value, normal := r.value.next.normal)
    ensures r.Success? ==> Coherent(r.value.next, t)
    ensures r.Success? ==> (r.value.changed <==> r.value.next.normal != s.normal)
  {
    match input
    case NotANumber => Failure(InvalidInput)
    case Number(x) =>
      var v := Snap(Map(s.warp, t, s.min, s.max, Clamp(x, 0.0, 1.0)), s.step);
      var n := Unmap(s.warp, t, s.min, s.max, v);
      Success(Outcome(s.(value := v, normal := n), n != s.normal))
  }

  /** With lawful curves the `normal` setter keeps `normal` in [0,1], and the value it
      stores is at most half a step outside [min, max]. */
  lemma NormalSetBounds(s: Slider, t: Transcendentals, x: real)
    requires Lawful(s.warp, t, s.min)
    ensures var n := NormalSet(s, t, Number(x)).value.next; 0.0 <= n.normal <= 1.0
    ensures var n := NormalSet(s, t, Number(x)).value.next;
      s.min <= s.max ==> s.min - Abs(s.step) / 2.0 <= n.value <= s.max + Abs(s.step) / 2.0
  {
    var p := Clamp(x, 0.0, 1.0);
    var v := Snap(Map(s.warp, t, s.min, s.max, p), s.step);
    UnmapInUnit(s.warp, t, s.min, s.max, v);
    if s.min <= s.max {
      MapWithin(s.warp, t, s.min, s.max, p);
    }
  }

  /** The range after the `min` setter: a minimum above the maximum becomes the maximum and
      the old maximum becomes the minimum. */
  function MinRange(x: real, oldMax: real): (r: (real, real))
    ensures r.0 <= r.1
    ensures r.0 == Min(x, oldMax) && r.1 == Max(x, oldMax)
  {
    if x > oldMax then (oldMax, x) else (x, oldMax)
  }

  /** The range after the `max` setter, symmetric to `MinRange`. */
  function MaxRange(x: real, oldMin: real): (r: (real, real))
    ensures r.0 <= r.1
    ensures r.0 == Min(x, oldMin) && r.1 == Max(x, oldMin)
  {
    if x < oldMin then (x, oldMin) else (oldMin, x)
  }

  /** Re-derives the value through the `normal` setter under a new range:
      `that.normal = unmap(that.value)`, with `unmap` reading the new bounds. */
  function Rerange(s: Slider, t: Transcendentals, lo: real, hi: real): (r: Outcome)
    ensures r.next.min == lo && r.next.max == hi
    ensures r.next.step == s.step && r.next.warp == s.warp
    ensures Coherent(r.next, t)
    ensures r.changed <==> r.next.normal != s.normal
  {
    var s1 := s.(min := lo, max := hi);
    NormalSet(s1, t, Number(Unmap(s.warp, t, lo, hi, s.value))).value
  }

  /** The `min` setter. */
  function MinSet(s: Slider, t: Transcendentals, input: Input): (r: Result<Outcome, SetterError>)
    ensures r.Failure? <==> input.NotANumber?
    ensures r.Failure? ==> r.error == InvalidMinimum
    ensures r.Success? ==> (r.value.changed <==> r.value.next.normal != s.normal)
    ensures r.Success? ==> r.value.next.min <= r.value.next.max
    ensures r.Success? ==> r.value.next.min == Min(input.x, s.max) && r.value.next.max == Max(input.x, s.max)
    ensures r.Success? ==> r.value.next.step == s.step && r.value.next.warp == s.warp
    ensures r.Success? ==> Coherent(r.value.next, t)
  {
    match input
    case NotANumber => Failure(InvalidMinimum)
    case Number(x) =>
      var range := MinRange(x, s.max);
      Success(Rerange(s, t, range.0, range.1))
  }

  /** The `max` setter. */
  function MaxSet(s: Slider, t: Transcendentals, input: Input): (r: Result<Outcome, SetterError>)
    ensures r.Failure? <==> input.NotANumber?
    ensures r.Failure? ==> r.error == InvalidMaximum
    ensures r.Success? ==> (r.value.changed <==> r.value.next.normal != s.normal)
    ensures r.Success? ==> r.value.next.min <= r.value.next.max
    ensures r.Success? ==> r.value.next.min == Min(input.x, s.min) && r.value.next.max == Max(input.x, s.min)
    ensures r.Success? ==> r.value.next.step == s.step && r.value.next.warp == s.warp
    ensures r.Success? ==> Coherent(r.value.next, t)
  {
    match input
    case NotANumber => Failure(InvalidMaximum)
    case Number(x) =>
      var range := MaxRange(x, s.min);
      Success(Rerange(s, t, range.0, range.1))
  }

  /** The step the `step` setter stores, as written: `Math.max(Math.min(0, x), max - min)`. */
  function StepRule(x: real, lo: real, hi: real): real {
    Max(Min(0.0, x), hi - lo)
  }

  /** As written, the requested step never survives on an ordered range: the rule always
      yields the width of the range. */
  lemma StepRuleIgnoresInput(x: real, lo: real, hi: real)
    requires lo <= hi
    ensures StepRule(x, lo, hi) == hi - lo
  {
  }

  /** The rotate preset's range with a requested step of 1: the rule stores 360. */
  lemma StepRuleRotateExample()
    ensures StepRule(1.0, -180.0, 180.0) == 360.0
    ensures IntendedStepRule(1.0, -180.0, 180.0) == 1.0
  {
  }

  /** The evidently intended rule, "step can't be more than total range": the requested step
      clamped into [0, max - min]. */
  function IntendedStepRule(x: real, lo: real, hi: real): (r: real)
    ensures lo <= hi ==> 0.0 <= r <= hi - lo
    ensures 0.0 <= x <= hi - lo ==> r == x
    ensures lo <= hi && hi - lo <= x ==> r == hi - lo
    ensures x <= 0.0 && lo <= hi ==> r == 0.0
  {
    Min(Max(0.0, x), hi - lo)
  }

  /** The `step` setter (with the intended rule): store the new step, then re-derive the value
      through the `value` setter from `map(normal)`. */
  function StepSet(s: Slider, t: Transcendentals, input: Input): (r: Result<Outcome, SetterError>)
    ensures r.Failure? <==> input.NotANumber?
    ensures r.Failure? ==> r.error == InvalidStep
    ensures r.Success? ==> r.value.next.step == IntendedStepRule(input.x, s.min, s.max)
    ensures r.Success? ==> r.value.next.min == s.min && r.value.next.max == s.max && r.value.next.warp == s.warp
    ensures r.Success? && s.min <= s.max ==> s.min <= r.value.next.value <= s.max
    ensures r.Success? ==> Coherent(r.value.next, t)
    ensures r.Success? ==> (r.value.changed <==> r.value.next.value != s.value)
  {
    match input
    case NotANumber => Failure(InvalidStep)
    case Number(x) =>
      var s1 := s.(step := IntendedStepRule(x, s.min, s.max));
      ValueSet(s1, t, Number(Map(s.warp, t, s.min, s.max, s.normal)))
  }

  /** The `warp` setter: a known name replaces the warp, anything else is ignored. Neither
      `normal` nor `value` is recomputed and `update()` is not called. */
  function WarpSet(s: Slider, name: string): (r: Slider)
    ensures r.value == s.value && r.normal == s.normal
    ensures r.min == s.min && r.max == s.max && r.step == s.step
    ensures WarpNamed(name).None? ==> r == s
    ensures WarpNamed(name).Some? ==> r == s.(warp := WarpNamed(name).value)
    ensures WarpName(r.warp) == name || r == s
  {
    match WarpNamed(name)
    case Some(w) => s.(warp := w)
    case None => s
  }

  // ---- Properties relating several setters ----

  /** x is a whole multiple of the step (every x is, for a zero step). */
  predicate OnGrid(x: real, step: real) {
    step == 0.0 || IsWhole(x / step)
  }

  /** A value on the step grid is left alone by rounding. */
  lemma SnapOnGrid(x: real, step: real)
    requires OnGrid(x, step)
    ensures Snap(x, step) == x
  {
    if step != 0.0 {
      var q := x / step;
      var n := q.Floor;
      assert n as real == q;
      assert Round(q) == n;
      assert Snap(x, step) == q * step;
      DivMul(x, step);
    }
  }

  /** Rounding always lands on the grid. */
  lemma SnapIsOnGrid(x: real, step: real)
    ensures OnGrid(Snap(x, step), step)
  {
    if step != 0.0 {
      var n := Round(x / step);
      assert Snap(x, step) == n as real * step;
      MulDiv(n as real, step);
      assert Snap(x, step) / step == n as real;
      assert IsWhole(n as real);
    }
  }

  /** Rounding to a positive step keeps a value between two grid points between them. */
  lemma SnapBetweenGridPoints(v: real, step: real, lo: real, hi: real)
    requires 0.0 < step && OnGrid(lo, step) && OnGrid(hi, step) && lo <= v <= hi
    ensures lo <= Snap(v, step) <= hi
  {
    var n := Round(v / step);
    DivMonotone(lo, v, step);
    DivMonotone(v, hi, step);
    RoundBetween(v / step, lo / step, hi / step);
    GridBetween(lo, hi, step, n as real);
  }

  /** With bounds on a positive step's grid, the `normal` setter keeps the value inside
      [min, max] even though it does not clamp after rounding. */
  lemma NormalSetWithinGridBounds(s: Slider, t: Transcendentals, x: real)
    requires Lawful(s.warp, t, s.min) && s.min <= s.max
    requires 0.0 < s.step && OnGrid(s.min, s.step) && OnGrid(s.max, s.step)
    ensures s.min <= NormalSet(s, t, Number(x)).value.next.value <= s.max
  {
    var p := Clamp(x, 0.0, 1.0);
    var v := Map(s.warp, t, s.min, s.max, p);
    MapWithin(s.warp, t, s.min, s.max, p);
    SnapBetweenGridPoints(v, s.step, s.min, s.max);
    assert NormalSet(s, t, Number(x)).value.next.value == Snap(v, s.step);
  }

  /** Off the grid, the `normal` setter can leave the value above the maximum: on [0,1] with
      step 0.4, setting normal to 1 rounds max = 1 to 1.2. */
  lemma NormalSetOvershoot(t: Transcendentals)
    ensures NormalSet(Slider(0.0, 1.0, 0.4, 0.0, 0.0, Lin), t, Number(1.0)).value.next.value == 1.2
  {
    assert Map(Lin, t, 0.0, 1.0, 1.0) == 1.0;
    assert 1.0 / 0.4 + 0.5 == 3.0;
    assert Round(1.0 / 0.4) == 3;
  }

  /** Without a step, the `normal` setter stores exactly the clamped position it is given
      (on a proper range with lawful curves). */
  lemma NormalSetExact(s: Slider, t: Transcendentals, x: real)
    requires Lawful(s.warp, t, s.min) && s.min < s.max && s.step == 0.0
    ensures NormalSet(s, t, Number(x)).value.next.normal == Clamp(x, 0.0, 1.0)
  {
    RoundTrip(s.warp, t, s.min, s.max, Clamp(x, 0.0, 1.0));
  }

  /** Setting the value, then setting it again to what it became, does not fire `update()`
      when min and max lie on the step grid. */
  lemma ValueSetSettles(s: Slider, t: Transcendentals, x: real)
    requires s.min <= s.max && OnGrid(s.min, s.step) && OnGrid(s.max, s.step)
    ensures var o := ValueSet(s, t, Number(x)).value;
      !ValueSet(o.next, t, Number(o.next.value)).value.changed
  {
    var o := ValueSet(s, t, Number(x)).value;
    var g := Snap(x, s.step);
    var v := o.next.value;
    assert v == Clamp(g, s.min, s.max);
    SnapIsOnGrid(x, s.step);
    assert OnGrid(v, s.step);
    SnapOnGrid(v, s.step);
    assert ValueSet(o.next, t, Number(v)).value.next.value == Clamp(v, s.min, s.max);
  }

  /** The value setter's example: on [-10, 10] with step 0.1, setting 15 stores 10 and
      setting -100 stores -10. */
  lemma ValueSetClampExample(t: Transcendentals)
    ensures ValueSet(Slider(-10.0, 10.0, 0.1, 0.0, 0.5, Lin), t, Number(15.0)).value.next.value == 10.0
    ensures ValueSet(Slider(-10.0, 10.0, 0.1, 0.0, 0.5, Lin), t, Number(-100.0)).value.next.value == -10.0
  {
    assert Round(15.0 / 0.1) == 150;
    assert Round(-100.0 / 0.1) == -1000;
  }

  /** Rounding to the step keeps the order of two values, whatever the sign of the step. */
  lemma SnapMonotone(x: real, y: real, step: real)
    requires x <= y
    ensures Snap(x, step) <= Snap(y, step)
  {
    if step != 0.0 {
      QuantizeMonotone(x, y, step);
    }
  }

  /** With min and max on the step grid, a value set at or beyond a bound is stored as
      exactly that bound. */
  lemma ValueSetBeyondBounds(s: Slider, t: Transcendentals, x: real)
    requires s.min <= s.max && OnGrid(s.min, s.step) && OnGrid(s.max, s.step)
    ensures x >= s.max ==> ValueSet(s, t, Number(x)).value.next.value == s.max
    ensures x <= s.min ==> ValueSet(s, t, Number(x)).value.next.value == s.min
  {
    assert ValueSet(s, t, Number(x)).value.next.value == Clamp(Snap(x, s.step), s.min, s.max);
    if x >= s.max {
      SnapMonotone(s.max, x, s.step);
      SnapOnGrid(s.max, s.step);
    }
    if x <= s.min {
      SnapMonotone(x, s.min, s.step);
      SnapOnGrid(s.min, s.step);
    }
  }

  /** Off the grid, a value beyond the maximum can be stored below it: on [0, 1] with step
      0.3, setting 1.01 rounds to 0.9, which the clamp keeps. */
  lemma ValueSetOffGridBound(t: Transcendentals)
    ensures !OnGrid(1.0, 0.3)
    ensures ValueSet(Slider(0.0, 1.0, 0.3, 0.0, 0.0, Lin), t, Number(1.01)).value.next.value == 0.9
  {
    assert (1.0 / 0.3).Floor == 3;
    assert Round(1.01 / 0.3) == 3;
  }

  /** Changing the range clamps the old value into the new one and rounds it to the step. */
  lemma RerangeClampsValue(s: Slider, t: Transcendentals, lo: real, hi: real)
    requires Lawful(s.warp, t, lo) && lo < hi
    ensures Rerange(s, t, lo, hi).next.value == Snap(Clamp(s.value, lo, hi), s.step)
  {
    var n := Unmap(s.warp, t, lo, hi, s.value);
    UnmapInUnit(s.warp, t, lo, hi, s.value);
    assert Clamp(n, 0.0, 1.0) == n;
    MapUnmap(s.warp, t, lo, hi, s.value);
  }

  /** A new range that still holds the value, on the step grid, keeps the value. */
  lemma RerangeKeepsValue(s: Slider, t: Transcendentals, lo: real, hi: real)
    requires Lawful(s.warp, t, lo) && lo < hi && lo <= s.value <= hi && OnGrid(s.value, s.step)
    ensures Rerange(s, t, lo, hi).next.value == s.value
  {
    RerangeClampsValue(s, t, lo, hi);
    assert Clamp(s.value, lo, hi) == s.value;
    SnapOnGrid(s.value, s.step);
  }

  /** The `min` setter keeps a value that still lies inside the new range and on the grid. */
  lemma MinSetKeepsValue(s: Slider, t: Transcendentals, x: real)
    requires var r := MinRange(x, s.max); Lawful(s.warp, t, r.0) && r.0 < r.1 && r.0 <= s.value <= r.1
    requires OnGrid(s.value, s.step)
    ensures MinSet(s, t, Number(x)).value.next.value == s.value
  {
    var r := MinRange(x, s.max);
    assert MinSet(s, t, Number(x)).value == Rerange(s, t, r.0, r.1);
    RerangeKeepsValue(s, t, r.0, r.1);
  }

  /** The `max` setter keeps a value that still lies inside the new range and on the grid. */
  lemma MaxSetKeepsValue(s: Slider, t: Transcendentals, x: real)
    requires var r := MaxRange(x, s.min); Lawful(s.warp, t, r.0) && r.0 < r.1 && r.0 <= s.value <= r.1
    requires OnGrid(s.value, s.step)
    ensures MaxSet(s, t, Number(x)).value.next.value == s.value
  {
    var r := MaxRange(x, s.min);
    assert MaxSet(s, t, Number(x)).value == Rerange(s, t, r.0, r.1);
    RerangeKeepsValue(s, t, r.0, r.1);
  }

  /** Raising the minimum to or past the value moves the value up to the new minimum without
      notifying anyone, when normal was 0: the `min` setter reports only a change of normal.
      For example, on [0, 10] with step 0 and value 0, setting min to 5 stores the value 5. */
  lemma MinSetMovesValueSilently(s: Slider, t: Transcendentals, x: real)
    requires s.value <= x <= s.max && s.normal == 0.0 && OnGrid(x, s.step)
    ensures MinSet(s, t, Number(x)).value.next.value == x
    ensures !MinSet(s, t, Number(x)).value.changed
  {
    assert MinRange(x, s.max) == (x, s.max);
    assert Unmap(s.warp, t, x, s.max, s.value) == 0.0;
    assert Map(s.warp, t, x, s.max, 0.0) == x;
    SnapOnGrid(x, s.step);
    assert Unmap(s.warp, t, x, s.max, x) == 0.0;
  }

  /** A new step leaves a coherent in-range value alone when the value is on the new grid,
      and then `update()` does not run. */
  lemma StepSetKeepsGridValue(s: Slider, t: Transcendentals, x: real)
    requires Lawful(s.warp, t, s.min) && s.min < s.max && Coherent(s, t)
    requires s.min <= s.value <= s.max
    requires OnGrid(s.value, IntendedStepRule(x, s.min, s.max))
    ensures StepSet(s, t, Number(x)).value.next.value == s.value
    ensures !StepSet(s, t, Number(x)).value.changed
  {
    var step := IntendedStepRule(x, s.min, s.max);
    var m := Map(s.warp, t, s.min, s.max, s.normal);
    MapUnmap(s.warp, t, s.min, s.max, s.value);
    assert m == s.value;
    SnapOnGrid(s.value, step);
    assert StepSet(s, t, Number(x)).value.next.value == Clamp(Snap(m, step), s.min, s.max);
  }

  /** A warp change leaves `normal` stale: on [0,1] with value 0.25 and a linear warp,
      switching to quadIn keeps normal 0.25 although quadIn's unmap of 0.25 is 0.5. */
  lemma WarpSetLeavesNormalStale(t: Transcendentals)
    requires SqrtLaw(t)
    ensures var s := WarpSet(Slider(0.0, 1.0, 0.001, 0.25, 0.25, Lin), "quadIn");
      s.warp == QuadIn && s.normal == 0.25 && Unmap(QuadIn, t, 0.0, 1.0, s.value) == 0.5
  {
    SqrtOfSquare(t, 0.5);
    assert Unmap(QuadIn, t, 0.0, 1.0, 0.25) == t.sqrt(0.25);
  }
}
