/**
 * The `CVSlider` object (cvslider.js): the constructor, the validated property setters over the closure
 * state, `update`, `bind` and `unbind`.
 *
 * Each setter is written the way the source works, field by field, and is proved against the
 * state transition of the `Control` module it must agree with; the listener calls `update`
 * makes are returned as a sequence of `Call`s. The DOM side of `update` (the input's value,
 * the deferred redraw, the `change` event) is not modelled beyond the text the redraw shows.
 */
module CVSlider {
  import opened Base
  import opened Numbers
  import opened Warps
  import opened Control
  import opened Listeners
  import opened Options
  import opened Setup
  import CvOptions
  import CvFormat

  class CVSlider<L(==)> {
    /** The square root, logarithm and exponential the curves use. */
    const t: Transcendentals
    /** The closure `formatNumberMemoize` built for this control. */
    const formatter: CvFormat.Formatter

    var min: real
    var max: real
    var step: real
    var value: real
    var normal: real
    var warp: Warp
    var listeners: seq<L>

    /** The closure state as a `Slider`. */
    function State(): Slider
      reads this
    {
      Slider(min, max, step, value, normal, warp)
    }

    /** The constructor after `parseOptions`: the formatter from the width, precision and
        direction, then `this.value = value` on the starting state, with no listeners. */
    constructor (t: Transcendentals, c: Config)
      ensures State() == Initial(c, t) && listeners == []
      ensures this.t == t
      ensures formatter == CvFormat.FormatterOf(c.numCharacters, Some(c.maxPrecision), !c.vertical)
    {
      this.t := t;
      var f := CvFormat.FormatNumberMemoize(c.numCharacters, Some(c.maxPrecision), !c.vertical);
      formatter := f;
      var v := Clamp(Snap(c.value, c.step), c.min, c.max);
      min, max, step, warp := c.min, c.max, c.step, c.warp;
      value := v;
      normal := Unmap(c.warp, t, c.min, c.max, v);
      listeners := [];
    }

    /** `update`: each listener, in order, with the current value and normal. */
    method Update() returns (calls: seq<Call<L>>)
      ensures calls == Calls(listeners, value, normal)
    {
      calls := Notify(listeners, value, normal);
    }

    /** The text the deferred redraw puts in the number display. */
    method Display() returns (s: string)
      ensures s == CvFormat.FormatOf(formatter, value)
      ensures |s| > 0 && s[0] == (if value < 0.0 then '-' else formatter.sp)
    {
      s := CvFormat.Format(formatter, value);
      CvFormat.FormatSign(formatter, value);
    }

    /** The `value` setter. */
    method SetValue(input: Input) returns (r: Result<seq<Call<L>>, SetterError>)
      modifies this
      ensures var o := ValueSet(old(State()), t, input);
        if o.Failure? then r == Failure(o.error) && State() == old(State())
        else State() == o.value.next && r == Success(if o.value.changed then Calls(listeners, value, normal) else [])
      ensures listeners == old(listeners)
    {
      if input.NotANumber? {
        return Failure(InvalidInput);
      }
      var previous := value;
      var x := input.x;
      if step != 0.0 {
        x := Quantize(x, step);
      }
      value := Clamp(x, min, max);
      normal := Unmap(warp, t, min, max, value);
      if previous != value {
        var calls := Update();
        r := Success(calls);
      } else {
        r := Success([]);
      }
    }

    /** The `normal` setter. */
    method SetNormal(input: Input) returns (r: Result<seq<Call<L>>, SetterError>)
      modifies this
      ensures var o := NormalSet(old(State()), t, input);
        if o.Failure? then r == Failure(o.error) && State() == old(State())
        else State() == o.value.next && r == Success(if o.value.changed then Calls(listeners, value, normal) else [])
      ensures listeners == old(listeners)
    {
      if input.NotANumber? {
        return Failure(InvalidInput);
      }
      var previous := normal;
      var x := Clamp(input.x, 0.0, 1.0);
      value := Map(warp, t, min, max, x);
      if step != 0.0 {
        value := Quantize(value, step);
      }
      normal := Unmap(warp, t, min, max, value);
      if previous != normal {
        var calls := Update();
        r := Success(calls);
      } else {
        r := Success([]);
      }
    }

    /** The `min` setter: a minimum above the maximum swaps the two, then `normal` is set
        from the value's position under the new range. */
    method SetMin(input: Input) returns (r: Result<seq<Call<L>>, SetterError>)
      modifies this
      ensures var o := MinSet(old(State()), t, input);
        if o.Failure? then r == Failure(o.error) && State() == old(State())
        else State() == o.value.next && r == Success(if o.value.changed then Calls(listeners, value, normal) else [])
      ensures listeners == old(listeners)
    {
      if input.NotANumber? {
        return Failure(InvalidMinimum);
      }
      if input.x > max {
        min, max := max, input.x;
      } else {
        min := input.x;
      }
      r := SetNormal(Number(Unmap(warp, t, min, max, value)));
    }

    /** The `max` setter, symmetric to `SetMin`. */
    method SetMax(input: Input) returns (r: Result<seq<Call<L>>, SetterError>)
      modifies this
      ensures var o := MaxSet(old(State()), t, input);
        if o.Failure? then r == Failure(o.error) && State() == old(State())
        else State() == o.value.next && r == Success(if o.value.changed then Calls(listeners, value, normal) else [])
      ensures listeners == old(listeners)
    {
      if input.NotANumber? {
        return Failure(InvalidMaximum);
      }
      if input.x < min {
        min, max := input.x, min;
      } else {
        max := input.x;
      }
      r := SetNormal(Number(Unmap(warp, t, min, max, value)));
    }

    /** The `step` setter: store the step the rule allows, then set `value` from
        `map(normal)` so that it is rounded to the new step. */
    method SetStep(input: Input) returns (r: Result<seq<Call<L>>, SetterError>)
      modifies this
      ensures var o := StepSet(old(State()), t, input);
        if o.Failure? then r == Failure(o.error) && State() == old(State())
        else State() == o.value.next && r == Success(if o.value.changed then Calls(listeners, value, normal) else [])
      ensures listeners == old(listeners)
    {
      if input.NotANumber? {
        return Failure(InvalidStep);
      }
      step := IntendedStepRule(input.x, min, max);
      r := SetValue(Number(Map(warp, t, min, max, normal)));
    }

    /** The `warp` setter: a known curve name replaces the curve; nothing is recomputed. */
    method SetWarp(name: string)
      modifies this
      ensures State() == WarpSet(old(State()), name)
      ensures listeners == old(listeners)
    {
      var w := WarpNamed(name);
      if w.Some? {
        warp := w.value;
      }
    }

    /** `bind`: appends the listener. */
    method Bind(fn: L)
      modifies this
      ensures listeners == Bound(old(listeners), fn)
      ensures State() == old(State())
    {
      listeners := listeners + [fn];
    }

    /** `unbind`: removes the first occurrence of the listener, if any. */
    method Unbind(fn: L)
      modifies this
      ensures listeners == Unbound(old(listeners), fn)
      ensures State() == old(State())
    {
      var i := IndexOf(listeners, fn);
      if i > -1 {
        listeners := listeners[..i] + listeners[i + 1..];
      }
    }
  }

  /** `new CVSlider(el, options)`: parse the options (a thrown error becomes a failure), read the
      configuration, and construct. */
  method NewCVSlider<L(==)>(t: Transcendentals, target: Target, options: Arg) returns (r: Result<CVSlider<L>, ParseError>)
    ensures var p := CvOptions.ParseOptions(target, options);
      (r.Success? <==> p.Success?) &&
      (r.Failure? ==> r.error == p.error) &&
      (r.Success? ==> (fresh(r.value) && r.value.listeners == [] &&
        r.value.State() == Initial(ConfigOf(p.value.0, p.value.1), t)))
  {
    var p := CvOptions.ParseOptions(target, options);
    if p.Failure? {
      return Failure(p.error);
    }
    var c := new CVSlider(t, ConfigOf(p.value.0, p.value.1));
    r := Success(c);
  }
}
