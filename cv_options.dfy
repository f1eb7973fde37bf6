/**
 * `CVSlider`'s option tables and `parseOptions` (cvslider.js). The merge is the shared one:
 * `instanceof Object` already skips null and primitives. Unlike `Ctl`, the attribute layer
 * carries no current input value, and the presets store their starting value under
 * `initial`, a key the constructor never reads.
 */
module CvOptions {
  import opened Base
  import opened Numbers
  import opened Warps
  import opened Options
  import opened Control
  import opened Setup

  /** `CVSlider.defaultOptions`. */
  const CvDefaults: Entries := [
    ("theme", Text("cv-default")), ("min", Num(0.0)), ("max", Num(1.0)), ("step", Num(0.0)),
    ("value", Num(0.0)), ("warp", Text("lin")), ("direction", Text("horizontal")),
    ("numCharacters", Num(0.0)), ("defaultPrecision", Num(3.0)), ("label", Text(""))]

  /** A preset with every field. */
  function Full(min: real, max: real, warp: string, step: real, initial: real): Entries {
    [("min", Num(min)), ("max", Num(max)), ("warp", Text(warp)), ("step", Num(step)), ("initial", Num(initial))]
  }

  /** `CVSlider.specs`: the audio presets by name. */
  function CvSpec(name: string): Option<Entries> {
    match name
    case "unipolar" => Some(Full(0.0, 1.0, "lin", 0.0, 0.0))
    case "bipolar" => Some([("min", Num(-1.0)), ("max", Num(1.0)), ("initial", Num(0.0))])
    case "bool" => Some(Full(0.0, 1.0, "lin", 1.0, 0.0))
    case "rotate" => Some(Full(-180.0, 180.0, "lin", 1.0, 0.0))
    case "freq" => Some(Full(20.0, 20000.0, "exp", 0.0, 440.0))
    case "lofreq" => Some(Full(0.1, 100.0, "exp", 0.0, 6.0))
    case "midfreq" => Some(Full(25.0, 4200.0, "exp", 0.0, 440.0))
    case "widefreq" => Some(Full(0.1, 20000.0, "exp", 0.0, 440.0))
    case "phase" => Some([("min", Num(0.0)), ("max", Num(360.0))])
    case "rq" => Some(Full(0.001, 2.0, "exp", 0.0, 0.707))
    case "midi" => Some([("min", Num(0.0)), ("max", Num(127.0)), ("step", Num(1.0)), ("initial", Num(64.0))])
    case "midinote" => Some([("min", Num(0.0)), ("max", Num(127.0)), ("step", Num(1.0)), ("initial", Num(60.0))])
    case "midivelocity" => Some([("min", Num(1.0)), ("max", Num(127.0)), ("initial", Num(64.0))])
    case "amp" => Some(Full(0.0, 1.0, "quadIn", 0.0, 0.0))
    case "boostcut" => Some([("min", Num(-20.0)), ("max", Num(20.0)), ("initial", Num(0.0))])
    case "pan" => Some([("min", Num(-1.0)), ("max", Num(1.0)), ("initial", Num(0.0))])
    case "detune" => Some([("min", Num(-20.0)), ("max", Num(20.0)), ("initial", Num(0.0))])
    case "rate" => Some(Full(0.125, 8.0, "exp", 0.0, 1.0))
    case "beats" => Some([("min", Num(0.0)), ("max", Num(20.0))])
    case "delay" => Some(Full(0.0001, 1.0, "exp", 0.0, 0.3))
    case "integer" => Some(Full(-1024.0, 1024.0, "lin", 1.0, 0.0))
    case "float" => Some(Full(-1024.0, 1024.0, "lin", 0.0, 0.0))
    case _ => None
  }

  /** The attribute layer: the element's attributes only; no layer without an element. */
  function CvAttributes(target: Target): (r: Option<Entries>)
    ensures target.Element? <==> r.Some?
    ensures target.Element? ==> r.value == target.attributes
  {
    if target.Element? then Some(target.attributes) else None
  }

  /** The four layers `CVSlider` merges. */
  function CvLayers(target: Target, options: Arg): seq<Arg> {
    Layers(CvDefaults, CvSpec, CvAttributes(target), OptionsArg(target, options))
  }

  /** `parseOptions`. */
  function ParseOptions(target: Target, options: Arg): (r: Result<(Options, Warp), ParseError>)
    ensures r.Success? ==> r.value.0 == Merge(CvLayers(target, options))
    ensures r.Failure? ==> !r.error.NullLayer?
  {
    Checked(Merge(CvLayers(target, options)))
  }

  /** An input's current value never reaches the options: only its attributes do. */
  lemma CurrentValueIgnored(attributes: Entries, current: Option<real>, options: Arg)
    ensures ParseOptions(Element(attributes, current), options) == ParseOptions(Element(attributes, None), options)
  {
  }

  /** `new CVSlider(null)` does not throw: the null layer is skipped and the defaults give a
      linear slider over [0, 1]. */
  lemma NullOptionsSkipped()
    ensures var r := ParseOptions(Plain(NullArg), Missing);
      r.Success? && r.value.1 == Lin && Lookup(r.value.0, "min") == Num(0.0) && Lookup(r.value.0, "max") == Num(1.0)
  {
    var l := CvLayers(Plain(NullArg), Missing);
    assert l[3] == NullArg && l[1] == Missing && l[2] == Missing;
    LastDefinedAt(CvDefaults, 5, "warp");
    LastDefinedAt(CvDefaults, 1, "min");
    LastDefinedAt(CvDefaults, 2, "max");
    LayerPrecedence(CvDefaults, CvSpec, None, NullArg, "warp");
    LayerPrecedence(CvDefaults, CvSpec, None, NullArg, "min");
    LayerPrecedence(CvDefaults, CvSpec, None, NullArg, "max");
  }

  /** The `{spec: 'freq'}` argument and the layers it gives. */
  const FreqOpts: Arg := Obj([("spec", Text("freq"))])

  /** The merged options for `{spec: 'freq'}`. */
  function FreqMerged(): Options {
    Merge(CvLayers(Plain(FreqOpts), Missing))
  }

  /** For `{spec: 'freq'}` the preset layer is the `freq` entry, and the options object itself
      defines only `spec`. */
  lemma FreqLayers(k: string)
    requires k != "spec"
    ensures Lookup(FreqMerged(), k) ==
      if Gives(Obj(Full(20.0, 20000.0, "exp", 0.0, 440.0)), k) then LastDefined(Full(20.0, 20000.0, "exp", 0.0, 440.0), k).value
      else if Gives(Obj(CvDefaults), k) then LastDefined(CvDefaults, k).value
      else Undefined
  {
    assert SpecLayer(CvSpec, None, FreqOpts) == Obj(Full(20.0, 20000.0, "exp", 0.0, 440.0));
    LastDefinedNone(FreqOpts.entries, k);
    LayerPrecedence(CvDefaults, CvSpec, None, FreqOpts, k);
  }

  /** The `freq` preset's range and curve reach the merged options. */
  lemma FreqRange()
    ensures Lookup(FreqMerged(), "min") == Num(20.0) && Lookup(FreqMerged(), "max") == Num(20000.0)
    ensures Lookup(FreqMerged(), "warp") == Text("exp")
  {
    var freq := Full(20.0, 20000.0, "exp", 0.0, 440.0);
    LastDefinedAt(freq, 0, "min");
    LastDefinedAt(freq, 1, "max");
    LastDefinedAt(freq, 2, "warp");
    FreqLayers("min");
    FreqLayers("max");
    FreqLayers("warp");
  }

  /** The preset's `initial` is merged, and `value` keeps its default. */
  lemma FreqValue()
    ensures Lookup(FreqMerged(), "initial") == Num(440.0) && Lookup(FreqMerged(), "value") == Num(0.0)
  {
    var freq := Full(20.0, 20000.0, "exp", 0.0, 440.0);
    LastDefinedAt(freq, 4, "initial");
    LastDefinedNone(freq, "value");
    LastDefinedAt(CvDefaults, 4, "value");
    FreqLayers("initial");
    FreqLayers("value");
  }

  /** The options merged for `{spec: 'freq'}`: the preset's range, curve and `initial`,
      and the default `value`. */
  lemma FreqMerge()
    ensures var r := ParseOptions(Plain(FreqOpts), Missing);
      r.Success? && r.value.1 == Exp &&
      Lookup(r.value.0, "min") == Num(20.0) && Lookup(r.value.0, "max") == Num(20000.0) &&
      Lookup(r.value.0, "initial") == Num(440.0) && Lookup(r.value.0, "value") == Num(0.0)
  {
    FreqRange();
    FreqValue();
    assert WarpOf(Lookup(FreqMerged(), "warp")) == Some(Exp);
  }

  /** A configured value of 0 under a minimum of 20 starts at the minimum. */
  lemma StartsAtMinimum(m: Options, w: Warp, t: Transcendentals)
    requires Lookup(m, "min") == Num(20.0) && Lookup(m, "max") == Num(20000.0) && Lookup(m, "value") == Num(0.0)
    ensures Initial(ConfigOf(m, w), t).value == 20.0
  {
    var c := ConfigOf(m, w);
    assert c.min == 20.0 && c.max == 20000.0 && c.value == 0.0;
    assert Snap(0.0, c.step) == 0.0;
    assert Initial(c, t).value == Clamp(Snap(0.0, c.step), 20.0, 20000.0);
  }

  /** The `freq` preset sets the range and curve but not the value: `initial` is merged but
      `value` stays the default 0, so the slider starts clamped to the minimum 20 rather than
      at the preset's 440. */
  lemma PresetLeavesValue(t: Transcendentals)
    ensures var r := ParseOptions(Plain(FreqOpts), Missing);
      r.Success? && Lookup(r.value.0, "initial") == Num(440.0) &&
      Initial(ConfigOf(r.value.0, r.value.1), t).value == 20.0
  {
    FreqMerge();
    var r := ParseOptions(Plain(FreqOpts), Missing);
    StartsAtMinimum(r.value.0, r.value.1, t);
  }
}
