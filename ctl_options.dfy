/**
 * `Ctl`'s option tables and `parseOptions` (ctl.js): the defaults, the audio presets, the
 * element attributes (with an input's current value), and the merge of
 * `[defaults, preset, attributes, options]` followed by the warp checks.
 *
 * As written the merge tests each layer with `typeof obj === 'object'`, which lets `null`
 * through to `Object.keys(null)`; `MergeTypeofAsWritten` keeps that behaviour and the rest of
 * the model parses with the intended merge, which skips null like any other non-object.
 */
module CtlOptions {
  import opened Base
  import opened Warps
  import opened Options

  /** `Ctl.defaultOptions`. */
  const CtlDefaults: Entries := [
    ("theme", Text("electro")), ("min", Num(0.0)), ("max", Num(1.0)), ("step", Num(0.0)),
    ("value", Num(0.0)), ("warp", Text("lin")), ("direction", Text("horizontal")),
    ("numCharacters", Num(0.0)), ("defaultPrecision", Num(3.0)), ("label", Text("")),
    ("alt_key_step", Num(0.05)), ("shift_key_step", Num(10.0))]

  /** A preset with every field. */
  function Full(min: real, max: real, warp: string, step: real, value: real): Entries {
    [("min", Num(min)), ("max", Num(max)), ("warp", Text(warp)), ("step", Num(step)), ("value", Num(value))]
  }

  /** `Ctl.specs`: the audio presets by name. */
  function CtlSpec(name: string): Option<Entries> {
    match name
    case "unipolar" => Some(Full(0.0, 1.0, "lin", 0.0, 0.0))
    case "bipolar" => Some([("min", Num(-1.0)), ("max", Num(1.0)), ("value", Num(0.0))])
    case "bool" => Some(Full(0.0, 1.0, "lin", 1.0, 0.0))
    case "rotate" => Some(Full(-180.0, 180.0, "lin", 1.0, 0.0))
    case "freq" => Some(Full(20.0, 20000.0, "exp", 0.0, 440.0))
    case "lofreq" => Some(Full(0.1, 100.0, "exp", 0.0, 6.0))
    case "midfreq" => Some(Full(25.0, 4200.0, "exp", 0.0, 440.0))
    case "widefreq" => Some(Full(0.1, 20000.0, "exp", 0.0, 440.0))
    case "phase" => Some([("min", Num(0.0)), ("max", Num(360.0))])
    case "rq" => Some(Full(0.001, 2.0, "exp", 0.0, 0.707))
    case "midi" => Some([("min", Num(0.0)), ("max", Num(127.0)), ("step", Num(1.0)), ("value", Num(64.0))])
    case "midinote" => Some([("min", Num(0.0)), ("max", Num(127.0)), ("step", Num(1.0)), ("value", Num(60.0))])
    case "midivelocity" => Some([("min", Num(1.0)), ("max", Num(127.0)), ("value", Num(64.0))])
    case "amp" => Some(Full(0.0, 1.0, "quadIn", 0.0, 0.0))
    case "boostcut" => Some([("min", Num(-20.0)), ("max", Num(20.0)), ("value", Num(0.0))])
    case "pan" => Some([("min", Num(-1.0)), ("max", Num(1.0)), ("value", Num(0.0))])
    case "detune" => Some([("min", Num(-20.0)), ("max", Num(20.0)), ("value", Num(0.0))])
    case "rate" => Some(Full(0.125, 8.0, "exp", 0.0, 1.0))
    case "beats" => Some([("min", Num(0.0)), ("max", Num(20.0))])
    case "delay" => Some(Full(0.0001, 1.0, "exp", 0.0, 0.3))
    case "integer" => Some(Full(-1024.0, 1024.0, "lin", 1.0, 0.0))
    case "float" => Some(Full(-1024.0, 1024.0, "lin", 0.0, 0.0))
    case _ => None
  }

  /** The attribute layer: the element's attributes, then an input's current value under
      `value` when it is non-empty and numeric; no layer without an element. */
  function CtlAttributes(target: Target): (r: Option<Entries>)
    ensures target.Element? <==> r.Some?
    ensures target.Element? && target.current.Some? ==> Get(r.value, "value") == Num(target.current.value)
    ensures target.Element? && target.current.None? ==> r.value == target.attributes
  {
    if target.Plain? then None
    else if target.current.Some? then Some(target.attributes + [("value", Num(target.current.value))])
    else Some(target.attributes)
  }

  /** The four layers `Ctl` merges. */
  function CtlLayers(target: Target, options: Arg): seq<Arg> {
    Layers(CtlDefaults, CtlSpec, CtlAttributes(target), OptionsArg(target, options))
  }

  /** The reduce as written: `typeof null === 'object'`, so a null layer reaches
      `Object.keys(null)` and throws; every other non-object is skipped. */
  function MergeTypeofAsWritten(layers: seq<Arg>): (r: Result<Options, ParseError>)
    ensures r.Failure? <==> NullArg in layers
    ensures r.Success? ==> r.value == Merge(layers)
  {
    if NullArg in layers then Failure(NullLayer) else Success(Merge(layers))
  }

  /** `parseOptions` as written. */
  function ParseOptionsAsWritten(target: Target, options: Arg): Result<(Options, Warp), ParseError> {
    match MergeTypeofAsWritten(CtlLayers(target, options))
    case Success(m) => Checked(m)
    case Failure(e) => Failure(e)
  }

  /** `parseOptions` with null layers skipped. */
  function ParseOptions(target: Target, options: Arg): (r: Result<(Options, Warp), ParseError>)
    ensures r.Success? ==> r.value.0 == Merge(CtlLayers(target, options))
    ensures r.Failure? ==> !r.error.NullLayer?
  {
    Checked(Merge(CtlLayers(target, options)))
  }

  /** Where the two agree: without a null layer the as-written parse is the intended one. */
  lemma ParseOptionsAgree(target: Target, options: Arg)
    requires NullArg !in CtlLayers(target, options)
    ensures ParseOptionsAsWritten(target, options) == ParseOptions(target, options)
  {
  }

  /** `new Ctl(null)`: as written the null first argument becomes the options layer and the
      merge throws; skipping it gives a linear slider with the defaults. */
  lemma NullOptionsThrow()
    ensures ParseOptionsAsWritten(Plain(NullArg), Missing) == Failure(NullLayer)
    ensures var r := ParseOptions(Plain(NullArg), Missing);
      r.Success? && r.value.1 == Lin && Lookup(r.value.0, "min") == Num(0.0) && Lookup(r.value.0, "max") == Num(1.0)
  {
    var l := CtlLayers(Plain(NullArg), Missing);
    assert l[3] == NullArg && l[1] == Missing && l[2] == Missing;
    LastDefinedAt(CtlDefaults, 5, "warp");
    LastDefinedAt(CtlDefaults, 1, "min");
    LastDefinedAt(CtlDefaults, 2, "max");
    LayerPrecedence(CtlDefaults, CtlSpec, None, NullArg, "warp");
    LayerPrecedence(CtlDefaults, CtlSpec, None, NullArg, "min");
    LayerPrecedence(CtlDefaults, CtlSpec, None, NullArg, "max");
  }

  /** Every key of the defaults is defined after the merge, whatever the other layers hold. */
  lemma DefaultsAlwaysDefined(target: Target, options: Arg, k: string)
    requires LastDefined(CtlDefaults, k).Some?
    ensures Defined(Lookup(Merge(CtlLayers(target, options)), k))
  {
    LayerPrecedence(CtlDefaults, CtlSpec, CtlAttributes(target), OptionsArg(target, options), k);
  }

  /** The rate example: an input holding 2 with a `min` attribute of 0.625, under options
      `{spec: 'rate', min: 1.125}`. */
  const RateTarget: Target := Element([("min", Num(0.625))], Some(2.0))
  const RateOpts: Arg := Obj([("spec", Text("rate")), ("min", Num(1.125))])

  /** The merged options of the rate example. */
  function RateMerged(): Options {
    Merge(CtlLayers(RateTarget, RateOpts))
  }

  /** The rate example's layers: the options, the attributes with the input's value, the
      `rate` preset, then the defaults. */
  lemma RateLayers(k: string)
    ensures var opts := RateOpts;
      var attrs := [("min", Num(0.625)), ("value", Num(2.0))];
      var rate := Full(0.125, 8.0, "exp", 0.0, 1.0);
      Lookup(RateMerged(), k) ==
        if Gives(opts, k) then LastDefined(opts.entries, k).value
        else if Gives(Obj(attrs), k) then LastDefined(attrs, k).value
        else if Gives(Obj(rate), k) then LastDefined(rate, k).value
        else if Gives(Obj(CtlDefaults), k) then LastDefined(CtlDefaults, k).value
        else Undefined
  {
    var attrs := CtlAttributes(RateTarget);
    assert attrs.value == [("min", Num(0.625))] + [("value", Num(2.0))];
    assert SpecLayer(CtlSpec, attrs, RateOpts) == Obj(Full(0.125, 8.0, "exp", 0.0, 1.0));
    LayerPrecedence(CtlDefaults, CtlSpec, attrs, RateOpts, k);
  }

  /** The options' min wins over the attribute's and the preset's. */
  lemma RateMin()
    ensures Lookup(RateMerged(), "min") == Num(1.125)
  {
    LastDefinedAt(RateOpts.entries, 1, "min");
    RateLayers("min");
  }

  /** The input's value wins over the preset's. */
  lemma RateValue()
    ensures Lookup(RateMerged(), "value") == Num(2.0)
  {
    LastDefinedNone(RateOpts.entries, "value");
    LastDefinedAt([("min", Num(0.625)), ("value", Num(2.0))], 1, "value");
    RateLayers("value");
  }

  /** The preset's max and warp win over the defaults. */
  lemma RateMaxWarp()
    ensures Lookup(RateMerged(), "max") == Num(8.0) && Lookup(RateMerged(), "warp") == Text("exp")
  {
    var attrs := [("min", Num(0.625)), ("value", Num(2.0))];
    var rate := Full(0.125, 8.0, "exp", 0.0, 1.0);
    LastDefinedNone(RateOpts.entries, "max");
    LastDefinedNone(attrs, "max");
    LastDefinedAt(rate, 1, "max");
    RateLayers("max");
    LastDefinedNone(RateOpts.entries, "warp");
    LastDefinedNone(attrs, "warp");
    LastDefinedAt(rate, 2, "warp");
    RateLayers("warp");
  }

  /** The merged options of the rate example: the options' min wins over the attribute and
      the preset, the input's value wins over the preset, and the preset's max and warp win
      over the defaults. */
  lemma RatePrecedenceExample()
    ensures var r := ParseOptions(RateTarget, RateOpts);
      r.Success? && r.value.1 == Exp &&
      Lookup(r.value.0, "min") == Num(1.125) && Lookup(r.value.0, "value") == Num(2.0) &&
      Lookup(r.value.0, "max") == Num(8.0)
  {
    RateMin();
    RateValue();
    RateMaxWarp();
    assert WarpOf(Lookup(RateMerged(), "warp")) == Some(Exp);
  }

  /** `new Ctl({warp: 'exp'})` throws: the default minimum 0 is not positive. */
  lemma ExpNeedsPositiveMinExample()
    ensures ParseOptions(Plain(Obj([("warp", Text("exp"))])), Missing) == Failure(ExpNeedsPositiveMin)
  {
    var opts := Obj([("warp", Text("exp"))]);
    assert SpecLayer(CtlSpec, None, opts) == Missing;
    LastDefinedAt(opts.entries, 0, "warp");
    LastDefinedNone(opts.entries, "min");
    LastDefinedAt(CtlDefaults, 1, "min");
    LayerPrecedence(CtlDefaults, CtlSpec, None, opts, "warp");
    LayerPrecedence(CtlDefaults, CtlSpec, None, opts, "min");
  }

  /** An unknown warp name throws, carrying the name. */
  lemma UnknownWarpExample()
    ensures ParseOptions(Plain(Obj([("warp", Text("log"))])), Missing) == Failure(UnknownWarp(Text("log")))
  {
    var opts := Obj([("warp", Text("log"))]);
    LastDefinedAt(opts.entries, 0, "warp");
    LayerPrecedence(CtlDefaults, CtlSpec, None, opts, "warp");
  }

  /** The rate example's step is the preset's 0. */
  lemma RateStep()
    ensures Lookup(RateMerged(), "step") == Num(0.0)
  {
    LastDefinedNone(RateOpts.entries, "step");
    LastDefinedNone([("min", Num(0.625)), ("value", Num(2.0))], "step");
    LastDefinedAt(Full(0.125, 8.0, "exp", 0.0, 1.0), 3, "step");
    RateLayers("step");
  }

  /** No layer of the rate example sets `maxPrecision` or `defaultPrecision` except the
      defaults. */
  lemma RatePrecision()
    ensures Lookup(RateMerged(), "maxPrecision") == Undefined && Lookup(RateMerged(), "defaultPrecision") == Num(3.0)
  {
    var attrs := [("min", Num(0.625)), ("value", Num(2.0))];
    var rate := Full(0.125, 8.0, "exp", 0.0, 1.0);
    DefaultsGive();
    LastDefinedNone(RateOpts.entries, "maxPrecision");
    LastDefinedNone(attrs, "maxPrecision");
    LastDefinedNone(rate, "maxPrecision");
    RateLayers("maxPrecision");
    LastDefinedNone(RateOpts.entries, "defaultPrecision");
    LastDefinedNone(attrs, "defaultPrecision");
    LastDefinedNone(rate, "defaultPrecision");
    RateLayers("defaultPrecision");
  }

  /** The zero-step options of the rate example: the preset's step 0, the default precision
      3, no `maxPrecision`. */
  lemma RateStepOptions()
    ensures Lookup(RateMerged(), "step") == Num(0.0)
    ensures Lookup(RateMerged(), "maxPrecision") == Undefined && Lookup(RateMerged(), "defaultPrecision") == Num(3.0)
  {
    RateStep();
    RatePrecision();
  }

  /** `{value: 0.87}` given as the only argument. */
  const ValueOpts: Arg := Obj([("value", Num(0.87))])

  /** The merged options of `{value: 0.87}`. */
  function ValueMerged(): Options {
    Merge(CtlLayers(Plain(ValueOpts), Missing))
  }

  /** With no element and no preset, the options win over the defaults. */
  lemma ValueLayers(k: string)
    ensures Lookup(ValueMerged(), k) ==
      if Gives(ValueOpts, k) then LastDefined(ValueOpts.entries, k).value
      else if Gives(Obj(CtlDefaults), k) then LastDefined(CtlDefaults, k).value
      else Undefined
  {
    assert SpecLayer(CtlSpec, None, ValueOpts) == Missing;
    LayerPrecedence(CtlDefaults, CtlSpec, None, ValueOpts, k);
  }

  /** The defaults the examples rely on. */
  lemma DefaultsGive()
    ensures LastDefined(CtlDefaults, "min") == Some(Num(0.0)) && LastDefined(CtlDefaults, "max") == Some(Num(1.0))
    ensures LastDefined(CtlDefaults, "step") == Some(Num(0.0)) && LastDefined(CtlDefaults, "warp") == Some(Text("lin"))
    ensures LastDefined(CtlDefaults, "defaultPrecision") == Some(Num(3.0))
    ensures LastDefined(CtlDefaults, "maxPrecision") == None
  {
    LastDefinedAt(CtlDefaults, 1, "min");
    LastDefinedAt(CtlDefaults, 2, "max");
    LastDefinedAt(CtlDefaults, 3, "step");
    LastDefinedAt(CtlDefaults, 5, "warp");
    LastDefinedAt(CtlDefaults, 8, "defaultPrecision");
    LastDefinedNone(CtlDefaults, "maxPrecision");
  }

  /** Every key but `value` takes its default: `{value: 0.87}` defines nothing else. */
  lemma ValueDefaults()
    ensures Lookup(ValueMerged(), "min") == Num(0.0) && Lookup(ValueMerged(), "max") == Num(1.0)
    ensures Lookup(ValueMerged(), "step") == Num(0.0) && Lookup(ValueMerged(), "warp") == Text("lin")
    ensures Lookup(ValueMerged(), "defaultPrecision") == Num(3.0)
    ensures Lookup(ValueMerged(), "maxPrecision") == Undefined
  {
    DefaultsGive();
    LastDefinedNone(ValueOpts.entries, "min");
    LastDefinedNone(ValueOpts.entries, "max");
    LastDefinedNone(ValueOpts.entries, "step");
    LastDefinedNone(ValueOpts.entries, "warp");
    LastDefinedNone(ValueOpts.entries, "defaultPrecision");
    LastDefinedNone(ValueOpts.entries, "maxPrecision");
    ValueLayers("min");
    ValueLayers("max");
    ValueLayers("step");
    ValueLayers("warp");
    ValueLayers("defaultPrecision");
    ValueLayers("maxPrecision");
  }

  /** The merged options of `{value: 0.87}` given as the only argument: the value from the
      options, everything else from the defaults. */
  lemma ValueOptionMerge()
    ensures var r := ParseOptions(Plain(ValueOpts), Missing);
      r.Success? && r.value.1 == Lin &&
      Lookup(r.value.0, "value") == Num(0.87) && Lookup(r.value.0, "min") == Num(0.0) &&
      Lookup(r.value.0, "max") == Num(1.0) && Lookup(r.value.0, "step") == Num(0.0) &&
      Lookup(r.value.0, "maxPrecision") == Undefined && Lookup(r.value.0, "defaultPrecision") == Num(3.0)
  {
    LastDefinedAt(ValueOpts.entries, 0, "value");
    ValueLayers("value");
    ValueDefaults();
    assert WarpOf(Lookup(ValueMerged(), "warp")) == Some(Lin);
  }
}
