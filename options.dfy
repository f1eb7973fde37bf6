/**
 * The option merge shared by both controls' `parseOptions`: layers of plain objects are
 * reduced into one options object, each layer's keys copied in order, a key holding null or
 * undefined never overwriting, and a later layer winning over an earlier one. The merged
 * options are then validated: the warp must name a known curve, and `exp` needs a positive
 * minimum.
 */
module Options {
  import opened Base
  import opened Warps

  /** A property value as the merge sees it. */
  datatype Value = Num(x: real) | Text(s: string) | Null | Undefined

  /** `value != null`: neither null nor undefined. */
  predicate Defined(v: Value) {
    !v.Null? && !v.Undefined?
  }

  /** JavaScript truthiness. */
  predicate Truthy(v: Value) {
    match v
    case Num(x) => x != 0.0
    case Text(s) => s != ""
    case _ => false
  }

  /** An object's own properties, in key order. */
  type Entries = seq<(string, Value)>

  /** The merged options object. */
  type Options = map<string, Value>

  /** One argument of the merge, as `typeof` and `instanceof Object` tell them apart. */
  datatype Arg = Missing | NullArg | Primitive | Obj(entries: Entries)

  /** Reading a property: undefined when the object has none. */
  function Lookup(m: Options, k: string): Value {
    if k in m then m[k] else Undefined
  }

  /** Reading a property of an object given by its entries: the last entry for the key. */
  function Get(e: Entries, k: string): Value {
    if |e| == 0 then Undefined
    else if e[|e| - 1].0 == k then e[|e| - 1].1
    else Get(e[..|e| - 1], k)
  }

  /** The last defined value the entries give the key, if any. */
  function LastDefined(e: Entries, k: string): (r: Option<Value>)
    ensures r.Some? ==> Defined(r.value)
  {
    if |e| == 0 then None
    else if e[|e| - 1].0 == k && Defined(e[|e| - 1].1) then Some(e[|e| - 1].1)
    else LastDefined(e[..|e| - 1], k)
  }

  /** The last defined entry for k decides: the value at position i when no later entry
      defines k. */
  lemma {:induction false} LastDefinedAt(e: Entries, i: int, k: string)
    requires 0 <= i < |e| && e[i].0 == k && Defined(e[i].1)
    requires forall j :: i < j < |e| ==> e[j].0 != k
    ensures LastDefined(e, k) == Some(e[i].1)
  {
    if i < |e| - 1 {
      LastDefinedAt(e[..|e| - 1], i, k);
    }
  }

  /** No entry for k: nothing defined. */
  lemma {:induction false} LastDefinedNone(e: Entries, k: string)
    requires forall j :: 0 <= j < |e| ==> e[j].0 != k
    ensures LastDefined(e, k) == None
  {
    if |e| > 0 {
      LastDefinedNone(e[..|e| - 1], k);
    }
  }

  /** One `forEach` step: copy the entry unless its value is null or undefined. */
  function Put(acc: Options, e: (string, Value)): Options {
    if Defined(e.1) then acc[e.0 := e.1] else acc
  }

  /** Copying a layer's entries in order onto `acc`. Every key the layer defines ends up with
      the layer's last defined value for it; every other key keeps what `acc` had. */
  function Overlay(acc: Options, e: Entries): (r: Options)
    ensures forall k :: LastDefined(e, k).Some? ==> Lookup(r, k) == LastDefined(e, k).value
    ensures forall k :: LastDefined(e, k).None? ==> Lookup(r, k) == Lookup(acc, k)
    ensures forall k :: k in r ==> k in acc || LastDefined(e, k).Some?
    ensures (forall k :: k in acc ==> Defined(acc[k])) ==> forall k :: k in r ==> Defined(r[k])
  {
    if |e| == 0 then acc else Put(Overlay(acc, e[..|e| - 1]), e[|e| - 1])
  }

  /** The `forEach` over a layer's keys, writing into the accumulated object. */
  method CopyDefined(acc: Options, e: Entries) returns (r: Options)
    ensures r == Overlay(acc, e)
  {
    r := acc;
    for i := 0 to |e|
      invariant r == Overlay(acc, e[..i])
    {
      assert e[..i + 1][..i] == e[..i];
      if Defined(e[i].1) {
        r := r[e[i].0 := e[i].1];
      }
    }
    assert e[..|e|] == e;
  }

  /** The reduce over the layers, skipping every layer that is not an object. */
  function Merge(layers: seq<Arg>): (r: Options)
    ensures forall k :: k in r ==> Defined(r[k])
  {
    if |layers| == 0 then map[]
    else
      var acc := Merge(layers[..|layers| - 1]);
      var last := layers[|layers| - 1];
      if last.Obj? then Overlay(acc, last.entries) else acc
  }

  /** Whether a layer gives the key a defined value. */
  predicate Gives(a: Arg, k: string) {
    a.Obj? && LastDefined(a.entries, k).Some?
  }

  /** The merged value of a key is the one from the last layer that defines it. */
  lemma {:induction false} MergeLastWins(layers: seq<Arg>, i: int, k: string)
    requires 0 <= i < |layers| && Gives(layers[i], k)
    requires forall j :: i < j < |layers| ==> !Gives(layers[j], k)
    ensures Lookup(Merge(layers), k) == LastDefined(layers[i].entries, k).value
  {
    var n := |layers|;
    if i < n - 1 {
      var front := layers[..n - 1];
      assert forall j :: i < j < |front| ==> front[j] == layers[j];
      MergeLastWins(front, i, k);
    }
  }

  /** A key no layer defines is absent from the merged options. */
  lemma {:induction false} MergeAbsent(layers: seq<Arg>, k: string)
    requires forall j :: 0 <= j < |layers| ==> !Gives(layers[j], k)
    ensures k !in Merge(layers)
  {
    if |layers| > 0 {
      MergeAbsent(layers[..|layers| - 1], k);
    }
  }

  /** The loop over the layers, with the `typeof`/`instanceof` test that skips non-objects. */
  method MergeLayers(layers: seq<Arg>) returns (r: Options)
    ensures r == Merge(layers)
  {
    r := map[];
    for i := 0 to |layers|
      invariant r == Merge(layers[..i])
    {
      assert layers[..i + 1][..i] == layers[..i];
      if layers[i].Obj? {
        r := CopyDefined(r, layers[i].entries);
      }
    }
    assert layers[..|layers|] == layers;
  }

  /** Why option parsing throws. */
  datatype ParseError = NullLayer | UnknownWarp(warp: Value) | ExpNeedsPositiveMin

  /** `name in warps` for the merged `warp` option: only a string can name a curve. */
  function WarpOf(v: Value): Option<Warp> {
    if v.Text? then WarpNamed(v.s) else None
  }

  /** `options.min <= 0` for a numeric minimum. */
  predicate NotPositive(v: Value) {
    v.Num? && v.x <= 0.0
  }

  /** The checks after the merge: an unknown warp throws, `exp` with min <= 0 throws;
      otherwise the curve the options name. */
  function Validate(m: Options): (r: Result<Warp, ParseError>)
    ensures r.Success? <==> WarpOf(Lookup(m, "warp")).Some? && !(WarpOf(Lookup(m, "warp")) == Some(Exp) && NotPositive(Lookup(m, "min")))
    ensures r.Success? ==> WarpName(r.value) == Lookup(m, "warp").s
    ensures r.Success? && r.value == Exp ==> !NotPositive(Lookup(m, "min"))
    ensures WarpOf(Lookup(m, "warp")).None? ==> r == Failure(UnknownWarp(Lookup(m, "warp")))
  {
    match WarpOf(Lookup(m, "warp"))
    case None => Failure(UnknownWarp(Lookup(m, "warp")))
    case Some(w) =>
      if w == Exp && NotPositive(Lookup(m, "min")) then Failure(ExpNeedsPositiveMin) else Success(w)
  }

  /** Validating merged options: the options with the curve their `warp` names. */
  function Checked(m: Options): (r: Result<(Options, Warp), ParseError>)
    ensures r.Success? ==> r.value.0 == m && Lookup(m, "warp") == Text(WarpName(r.value.1))
    ensures r.Success? && r.value.1 == Exp ==> !NotPositive(Lookup(m, "min"))
    ensures r.Failure? ==> Validate(m).Failure? && r.error == Validate(m).error
  {
    match Validate(m)
    case Success(w) => Success((m, w))
    case Failure(e) => Failure(e)
  }

  /** The first constructor argument: a DOM element (its attributes, already converted to
      numbers where numeric, and the `value` of an input when non-empty and numeric), or
      anything else. */
  datatype Target = Element(attributes: Entries, current: Option<real>) | Plain(arg: Arg)

  /** `else if (_options == null) _options = el`: without an element, a missing options
      argument is replaced by the first argument. */
  function OptionsArg(target: Target, options: Arg): (r: Arg)
    ensures target.Element? ==> r == options
    ensures options.Obj? || options.Primitive? ==> r == options
    ensures target.Plain? && (options.Missing? || options.NullArg?) ==> r == target.arg
  {
    if target.Plain? && (options.Missing? || options.NullArg?) then target.arg else options
  }

  /** A preset looked up by name: a table entry, or undefined. */
  function SpecArg(specs: string -> Option<Entries>, name: Value): Arg {
    if name.Text? && specs(name.s).Some? then Obj(specs(name.s).value) else Missing
  }

  /** The preset layer: an attribute `spec`, overridden by an options `spec`. */
  function SpecLayer(specs: string -> Option<Entries>, attrs: Option<Entries>, opts: Arg): (r: Arg)
    ensures opts.Obj? && Truthy(Get(opts.entries, "spec")) ==> r == SpecArg(specs, Get(opts.entries, "spec"))
    ensures !(opts.Obj? && Truthy(Get(opts.entries, "spec"))) && attrs.Some? && Truthy(Get(attrs.value, "spec")) ==>
      r == SpecArg(specs, Get(attrs.value, "spec"))
    ensures !(opts.Obj? && Truthy(Get(opts.entries, "spec"))) && !(attrs.Some? && Truthy(Get(attrs.value, "spec"))) ==>
      r == Missing
  {
    if opts.Obj? && Truthy(Get(opts.entries, "spec")) then SpecArg(specs, Get(opts.entries, "spec"))
    else if attrs.Some? && Truthy(Get(attrs.value, "spec")) then SpecArg(specs, Get(attrs.value, "spec"))
    else Missing
  }

  /** `[defaults, spec, elementAttributes, _options]`. */
  function Layers(defaults: Entries, specs: string -> Option<Entries>, attrs: Option<Entries>, opts: Arg): (r: seq<Arg>)
    ensures |r| == 4 && r[0] == Obj(defaults) && r[3] == opts
  {
    [Obj(defaults), SpecLayer(specs, attrs, opts), if attrs.Some? then Obj(attrs.value) else Missing, opts]
  }

  /** The four layers' precedence for one key: options over attributes over preset over
      defaults, each consulted only when the later ones leave the key undefined. */
  lemma LayerPrecedence(defaults: Entries, specs: string -> Option<Entries>, attrs: Option<Entries>, opts: Arg, k: string)
    ensures var m := Merge(Layers(defaults, specs, attrs, opts)); var l := Layers(defaults, specs, attrs, opts);
      Lookup(m, k) ==
        if Gives(l[3], k) then LastDefined(l[3].entries, k).value
        else if Gives(l[2], k) then LastDefined(l[2].entries, k).value
        else if Gives(l[1], k) then LastDefined(l[1].entries, k).value
        else if Gives(l[0], k) then LastDefined(l[0].entries, k).value
        else Undefined
  {
    var l := Layers(defaults, specs, attrs, opts);
    if Gives(l[3], k) {
      MergeLastWins(l, 3, k);
    } else if Gives(l[2], k) {
      MergeLastWins(l, 2, k);
    } else if Gives(l[1], k) {
      MergeLastWins(l, 1, k);
    } else if Gives(l[0], k) {
      MergeLastWins(l, 0, k);
    } else {
      MergeAbsent(l, k);
    }
  }
}
