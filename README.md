# Ctl / CVSlider value core in Dafny

This project models the value core of the `Ctl` slider control (ctl.js) and of its sibling
`CVSlider` (cvslider.js). Both are browser widgets that hold a number in a `[min, max]` range.
They keep it rounded to a `step` and track its position `normal` in `[0, 1]` through a "warp"
curve (`lin`, `exp`, `quadIn`, `quadOut`). They notify bound listeners from their setters:
the value setter when the value changes; the normal, min, max and step setters when their own
test passes; the warp setter never. They print the value into a fixed-width display.

The model covers these parts:

- **The closure state and its validated setters** (`value`, `normal`, `min`, `max`, `step`,
  `warp`).
  - The `Control` module gives each setter as a transition on a `Slider` value.
  - The classes `Ctl.Ctl` and `CVSlider.CVSlider` hold the same six fields as mutable fields.
  - Each setter method updates the fields step by step, as the source does.
  - Each setter method is proved equal to its transition, including the listener calls that
    `update` makes.
- **The warp curves and their laws** (`Warps`).
  - `Math.sqrt`, `Math.log` and `Math.exp` are a parameter (`Transcendentals`).
  - Lemmas that need properties of these functions take them as preconditions (`SqrtLaw`,
    `LogExpLaw`).
- **The listener list** (`Listeners`): `bind`, `unbind` and the notification loop of `update`.
- **`parseOptions`** for each control (`Options`, `CtlOptions`, `CvOptions`).
  - The defaults, the preset tables and the element attributes are merged as layers.
  - Null and undefined never overwrite a key.
  - After the merge, the warp name and the `exp` minimum are validated.
- **The constructor's derived settings** (`Setup`): `maxPrecision`, the default
  `numCharacters`, the replacement for a zero step, and the starting state.
- **The two fixed-width formatters** (`CtlFormat`, `CvFormat`). `toFixed` is modelled exactly
  over reals (`Decimal`): round half up at the requested digit, then split into whole and
  fraction digits.

Numbers are Dafny `real`. `Math.round(x)` is `floor(x + 0.5)`. A setter's argument is either a
number or something that parses to NaN (`Input`).

## Model

| member | source | states |
|---|---|---|
| Warps.WarpNamed | ctl.js:102-107 | a name is accepted only if it is the key of one of the four curves, and it yields that curve |
| Warps.WarpNameRoundTrip | ctl.js:782-859 | every curve is found again under its own key |
| Warps.MapWithin | ctl.js:782-859 | each curve's `map` gives `min` for x <= 0 and `max` for x >= 1, and stays within [min, max] when min <= max (exp needs a positive min) |
| Warps.LinMapWithin | ctl.js:785-791 | the linear `map` of an interior x stays in [min, max] |
| Warps.QuadInMapWithin | ctl.js:824-830 | the quadIn `map` of an interior x stays in [min, max] |
| Warps.QuadOutMapWithin | ctl.js:842-849 | the quadOut `map` of an interior x stays in [min, max] |
| Warps.ExpMapWithin | ctl.js:802-810 | the exp `map` of an interior x stays in [min, max] when log and exp are monotone inverses and min > 0 |
| Warps.UnmapInUnit | ctl.js:782-859 | every curve's `unmap` lies in [0, 1]: 0 at or below min, 1 at or above max |
| Warps.RoundTrip | ctl.js:782-859 | unmap(map(x)) == x for x in [0, 1] when min < max, for every curve whose laws hold |
| Warps.LinRoundTrip | ctl.js:784-799 | the linear curve's round trip on interior positions |
| Warps.QuadInRoundTrip | ctl.js:823-837 | the quadIn round trip, given a true square root |
| Warps.QuadOutRoundTrip | ctl.js:841-857 | the quadOut round trip, given a true square root |
| Warps.ExpRoundTrip | ctl.js:801-819 | the exp round trip, given monotone inverse log and exp and min > 0 |
| Warps.MapUnmap | ctl.js:782-859 | map(unmap(v)) is v clamped into [min, max] when min < max |
| Warps.LinMapUnmap | ctl.js:784-799 | the linear curve maps an interior value's position back to it |
| Warps.QuadInMapUnmap | ctl.js:823-837 | the quadIn curve maps an interior value's position back to it |
| Warps.QuadOutMapUnmap | ctl.js:841-857 | the quadOut curve maps an interior value's position back to it |
| Warps.ExpMapUnmap | ctl.js:801-819 | the exp curve maps an interior value's position back to it |
| Numbers.Clamp | ctl.js:142 | `Math.min(Math.max(lo, x), hi)` lies in [lo, hi] when lo <= hi, keeps x inside, gives the nearer bound outside, and gives hi when hi < lo |
| Numbers.Round | ctl.js:141 | `Math.round` as floor(x + 0.5): the integer within half of x, rounding halves up |
| Numbers.Quantize | ctl.js:141 | `Math.round(x / step) * step` is within half a step of x |
| Numbers.QuantizeIdempotent | ctl.js:141 | rounding to the step twice is rounding once |
| Numbers.QuantizeMonotone | ctl.js:141 | rounding to a non-zero step, of either sign, keeps the order of two values |
| Control.Snap | ctl.js:141 | the step rounding leaves x alone for a zero step and moves it by at most half a step |
| Control.ValueSet | ctl.js:132-148 | NaN throws "invalid input" and changes nothing; otherwise only value and normal change, the value lies in [min, max], normal is unmap(value), and `update` runs exactly when the value changed |
| Control.NormalSet | ctl.js:111-129 | NaN throws; otherwise only value and normal change, normal is unmap(value), and `update` runs exactly when normal changed |
| Control.NormalSetBounds | ctl.js:121-124 | with lawful curves the stored normal lies in [0, 1] and the value is at most half a step outside [min, max] |
| Control.NormalSetWithinGridBounds | ctl.js:121-124 | when min and max are on the step grid, the normal setter keeps the value inside [min, max] |
| Control.NormalSetOvershoot | ctl.js:121-124 | the normal setter does not clamp after rounding: on [0, 1] with step 0.4, normal 1 stores the value 1.2 |
| Control.NormalSetExact | ctl.js:121-124 | with a zero step, setting normal stores exactly the clamped input |
| Control.MinRange | ctl.js:159-167 | a minimum above the maximum swaps with it: the range becomes (min(x, max), max(x, max)) |
| Control.MaxRange | ctl.js:182-190 | a maximum below the minimum swaps with it: the range becomes (min(x, min), max(x, min)) |
| Control.Rerange | ctl.js:170 | re-deriving through the normal setter under new bounds keeps step and warp, leaves normal == unmap(value), and notifies exactly when normal changed |
| Control.MinSet | ctl.js:150-172 | NaN throws "invalid minimum value"; otherwise min <= max afterwards, even when the previous state violated it, and step and warp are kept |
| Control.MaxSet | ctl.js:173-195 | NaN throws "invalid maximum value"; otherwise min <= max afterwards, and step and warp are kept |
| Control.RerangeClampsValue | ctl.js:170 | after a range change the value is the old value clamped into the new range and rounded to the step |
| Control.RerangeKeepsValue | ctl.js:170 | a value on the step grid that is still inside the new range is kept |
| Control.MinSetKeepsValue | ctl.js:150-172 | moving the minimum keeps an on-grid value that stays in range |
| Control.MinSetMovesValueSilently | ctl.js:159-170 | raising the minimum to or past the value when normal is 0 moves the value to the new minimum, and no listener runs, because the `min` setter notifies only when normal changes |
| Control.MaxSetKeepsValue | ctl.js:173-195 | moving the maximum keeps an on-grid value that stays in range |
| Control.StepRuleIgnoresInput | ctl.js:205 | as written, the stored step is max - min for every request whenever min <= max |
| Control.StepRuleRotateExample | ctl.js:205 | as written, the range -180..180 with a requested step of 1 stores 360; the intended rule stores 1 |
| Control.IntendedStepRule | ctl.js:204-205 | the requested step clamped into [0, max - min]: kept when it fits, max - min when larger, 0 when not positive |
| Control.StepSet | ctl.js:197-211 | NaN throws "invalid step value"; otherwise the step is the intended rule's, min, max and warp are kept, the value re-derived from map(normal) lies in [min, max], and `update` runs exactly when the value changed |
| Control.StepSetKeepsGridValue | ctl.js:197-211 | a coherent in-range value on the new step's grid is kept and no listener runs |
| Control.WarpSet | ctl.js:98-109 | an unknown name changes nothing; a known one replaces the curve and nothing else |
| Control.WarpSetLeavesNormalStale | ctl.js:98-109 | changing the curve leaves normal as it was: a linear value 0.25 keeps normal 0.25 under quadIn, where its position is 0.5 |
| Control.SnapOnGrid | ctl.js:141 | a value already on the step grid is not moved by rounding |
| Control.SnapIsOnGrid | ctl.js:141 | rounding always lands on the step grid |
| Control.SnapBetweenGridPoints | ctl.js:141 | a value between two grid points rounds to a point between them |
| Control.SnapMonotone | ctl.js:141 | the `if (step)` rounding keeps the order of two values |
| Control.ValueSetSettles | ctl.js:141-147 | with min and max on the grid, setting the value the setter just stored changes nothing and notifies no one |
| Control.ValueSetClampExample | ctl.js:132-148 | on [-10, 10] with step 0.1, setting 15 stores 10 and setting -100 stores -10 |
| Control.ValueSetBeyondBounds | ctl.js:141-142 | with min and max on the step grid, a value at or above the maximum is stored as exactly the maximum, and one at or below the minimum as exactly the minimum |
| Control.ValueSetOffGridBound | ctl.js:141-142 | with a maximum off the grid the value is rounded before it is clamped, so it can land below the maximum: on [0, 1] with step 0.3, setting 1.01 stores 0.9 |
| Listeners.IndexOf | ctl.js:272 | `indexOf`: -1 exactly when absent, otherwise the first position holding the listener |
| Listeners.Bound | ctl.js:263-265 | `bind` appends the listener at the end and keeps the others |
| Listeners.Unbound | ctl.js:271-274 | `unbind` is a no-op when absent; otherwise exactly one occurrence, the first, is removed, earlier listeners keep their place and later ones move up by one |
| Listeners.UnbindUndoesBind | ctl.js:263-274 | unbinding a listener that was just bound (and not bound before) restores the list |
| Listeners.UnbindRemovesOne | ctl.js:271-274 | a listener bound twice is still bound after one unbind |
| Listeners.Calls | ctl.js:244-248 | one call per listener, in list order, each with the current value and normal |
| Listeners.Notify | ctl.js:244-248 | the listener loop makes exactly those calls |
| Options.LastDefined | ctl.js:334-338 | the last non-null entry for a key is a defined value |
| Options.LastDefinedAt | ctl.js:334-338 | a layer's value for a key is its last defined entry for it |
| Options.Overlay | ctl.js:331-340 | copying a layer sets each key it defines to its last defined value, leaves other keys as they were, adds no other keys, and never stores null or undefined |
| Options.CopyDefined | ctl.js:334-338 | the `forEach` copy loop computes that overlay |
| Options.Merge | ctl.js:328-342 | the reduce over the layers skips non-objects and stores only defined values |
| Options.MergeLastWins | ctl.js:328-342 | a key's merged value comes from the last layer that defines it |
| Options.MergeAbsent | ctl.js:328-342 | a key that no layer defines is absent |
| Options.MergeLayers | ctl.js:328-342 | the reduce loop computes that merge |
| Options.Validate | ctl.js:350-354 | the merge fails exactly when the warp is not a known name (carrying the name) or is `exp` with a minimum <= 0 |
| Options.Checked | ctl.js:350-356 | validation returns the options unchanged with the curve their `warp` names, and an `exp` result has a positive minimum |
| Options.OptionsArg | ctl.js:319-321 | without a DOM element, a missing or null options argument is replaced by the first argument |
| Options.SpecLayer | ctl.js:324-325 | an options `spec` takes precedence over an attribute `spec`, and without either there is no preset layer |
| Options.Layers | ctl.js:328 | the layers are defaults, preset, attributes and options, in that order |
| Options.LayerPrecedence | ctl.js:324-342 | for each key, options win over attributes, attributes over the preset, and the preset over the defaults; each layer is consulted only when the later ones leave the key undefined |
| CtlOptions.CtlAttributes | ctl.js:303-317 | the attribute layer exists exactly for an element, and an input's non-empty numeric current value overrides the `value` attribute |
| CtlOptions.MergeTypeofAsWritten | ctl.js:331 | as written, the merge throws exactly when some layer is null (`typeof null` is 'object'), and otherwise gives the merge |
| CtlOptions.ParseOptions | ctl.js:285-357 | the parsed options are the merge of the four layers, and no failure comes from a null layer |
| CtlOptions.ParseOptionsAgree | ctl.js:285-357 | with no null layer, the as-written parse and the intended one agree |
| CtlOptions.NullOptionsThrow | ctl.js:319-331 | as written, `new Ctl(null)` throws in the merge; skipping the null layer gives a linear slider on [0, 1] from the defaults |
| CtlOptions.DefaultsAlwaysDefined | ctl.js:631-644 | every key in the defaults is defined after the merge, whatever the other layers hold |
| CtlOptions.RatePrecedenceExample | test/tests.js:229-269 | for an input holding 2 with a `min` attribute of 0.625, under `{spec: 'rate', min: 1.125}`: min 1.125, value 2, max 8, curve exp |
| CtlOptions.RateStepOptions | ctl.js:863-895 | in the same example, the step is the preset's 0 and the precision the default 3 |
| CtlOptions.ValueOptionMerge | test/tests.js:66-82 | `{value: 0.87}` as the only argument gives value 0.87 and otherwise the defaults |
| CtlOptions.ExpNeedsPositiveMinExample | ctl.js:352-353 | `{warp: 'exp'}` alone throws, because the default minimum is 0 |
| CtlOptions.UnknownWarpExample | ctl.js:350-351 | an unknown warp name throws, and the error carries the name |
| CvOptions.CvAttributes | cvslider.js:493-510 | the attribute layer exists exactly for an element and holds only its attributes |
| CvOptions.ParseOptions | cvslider.js:490-546 | the parsed options are the merge of the four layers, with null and primitive layers skipped |
| CvOptions.CurrentValueIgnored | cvslider.js:493-510 | an input's current value never reaches the options |
| CvOptions.NullOptionsSkipped | cvslider.js:527-528 | `new CVSlider(null)` does not throw: the defaults give a linear slider on [0, 1] |
| CvOptions.FreqMerge | cvslider.js:452-484 | `{spec: 'freq'}` merges min 20, max 20000, curve exp and `initial` 440, while `value` stays the default 0 |
| CvOptions.StartsAtMinimum | cvslider.js:201 | a configured value of 0 under the range 20..20000 starts at 20 |
| CvOptions.PresetLeavesValue | cvslider.js:62 | the `freq` preset's `initial` 440 is merged but never read, and the slider starts at the minimum 20 |
| Setup.MaxPrecision | ctl.js:57-65 | without a `maxPrecision` option and with a non-zero step, the precision is the least number of decimal places that makes the step whole |
| Setup.EffectiveStep | ctl.js:80 | the step in use is never 0, and a non-zero step is kept |
| Setup.ReplacementStepPrecision | ctl.js:80 | the step 10^-p that replaces a zero step has exactly p decimal places |
| Setup.DefaultNumCharactersAsWritten | ctl.js:69-77 | as written, the default width counts at most two integer characters, plus the point and fraction digits, plus one for a negative minimum |
| Setup.DefaultNumCharacters | ctl.js:69-77 | the intended default width holds all of `max.toFixed()`, the point and fraction digits, and the sign |
| Setup.RotateDefaultWidth | ctl.js:70 | for the rotate preset the written rule gives 3 characters; the intended rule gives 4 |
| Setup.NumCharacters | ctl.js:69 | without a `numCharacters` option the width is the default width |
| Setup.ConfigOf | ctl.js:45-80 | the configuration takes min, max, value and a non-zero step from the options, and the validated warp |
| Setup.ZeroStepConfig | ctl.js:57-80 | options with step 0 and the default precision 3 give the step 0.001 and precision 3 |
| Setup.Initial | ctl.js:221 | the starting state keeps the configured range, step and warp, puts the value in range (or at max when the configured min exceeds max), and has normal == unmap(value) |
| Setup.InitialKeepsValue | ctl.js:221 | a configured value that is in range and on the grid is the starting value |
| CtlFormat.Width | ctl.js:515-523 | the digit budget plus the sign slot is max(numCharacters or 8, 3) |
| CtlFormat.FormatterOf | ctl.js:510-528 | the padding is exactly the digit budget's length and made of the pad character |
| CtlFormat.FormatNumberMemoize | ctl.js:510-528 | the padding loop builds that formatter |
| CtlFormat.Precision | ctl.js:539 | the kept fraction digits are at most maxPrecision, fit the budget beside the integer digits and the point, and are all of maxPrecision when that fits |
| CtlFormat.PrecisionShrinks | ctl.js:539 | more integer digits never give more fraction digits |
| CtlFormat.FormatSign | ctl.js:532-545 | with a sign slot, the first character is '-' for a negative value and the pad character otherwise; without one, a value and its negation print the same text |
| CtlFormat.FormatWidth | ctl.js:510-545 | when the integer digits fit and rounding adds no digit, the text is exactly max(numCharacters or 8, 3) characters |
| CtlFormat.FixedWidthFlagIgnored | ctl.js:89 | as written, the formatter never sees the flag it reads, so it always pads with plain spaces |
| CtlFormat.CtlOptions | ctl.js:85-90 | the intended options pad with en spaces exactly for a horizontal control, and reserve a sign slot exactly when min < 0 |
| CtlFormat.DefaultWidthFits | ctl.js:69-90 | with the intended default width, a value no wider than `max.toFixed()` prints at exactly the configured width |
| CtlFormat.RotateOverflows | ctl.js:70 | as written, the rotate preset prints -180 as 4 characters in a width of 3 |
| CvFormat.Width | cvslider.js:650-655 | the digit budget plus one for the point (when maxPrecision > 0) is max(numCharacters or 8, 2) |
| CvFormat.FormatterOf | cvslider.js:648-660 | the pad character is an en space exactly for fixed width, maxPrecision defaults to 3 when null, and the padding is the budget's length |
| CvFormat.FormatNumberMemoize | cvslider.js:648-660 | the padding loop builds that formatter |
| CvFormat.Places | cvslider.js:668-675 | the integer digit count is at least 1 |
| CvFormat.Precision | cvslider.js:677 | the kept fraction digits are at most maxPrecision, fit beside the integer digits, and are all of maxPrecision when that fits |
| CvFormat.CountPlaces | cvslider.js:664-675 | the divide-by-ten loop counts the digits of the integer part of the magnitude, and gives 1 below one |
| CvFormat.Format | cvslider.js:662-680 | the closure's text is the sign slot, the padding left after the digits, and the magnitude to the kept precision, as specified |
| CvFormat.FormatSign | cvslider.js:663 | the first character is '-' for a negative value and the pad character otherwise |
| CvFormat.FormatWidth | cvslider.js:648-680 | when the integer digits fit, rounding adds no digit, and a fraction digit is shown (or none can be), the text is one sign slot plus max(numCharacters or 8, 2) characters |
| CvFormat.FormatExample | cvslider.js:662-680 | -1234.5678 under width 8 and precision 3 prints as "-1234.568" |
| CvFormat.DefaultWidthFits | cvslider.js:80-91 | with the intended default width, every value with no more integer digits than `max.toFixed()` prints as one sign slot plus exactly that width, absent a rounding carry |
| CvFormat.HundredOverflows | cvslider.js:81 | as written, a 0..100 slider with step 1 gets the default width 2 (the intended rule gives 3), and 100 prints one character wider than 5 |
| Ctl.Ctl.constructor | ctl.js:37-225 | the new control holds the starting state of its configuration, has no listeners, and has the formatter of its width, precision, sign and direction; the formatter uses the intended default width and the intended `isFixedWidth` flag |
| Ctl.Ctl.Update | ctl.js:231-254 | `update` calls every listener in order with the current value and normal |
| Ctl.Ctl.Display | ctl.js:238-241 | the redraw text starts with '-' for a negative value and the pad character otherwise, when there is a sign slot |
| Ctl.Ctl.SetValue | ctl.js:132-148 | the fields change exactly as `Control.ValueSet` says, and the listeners run once each only when it reports a change |
| Ctl.Ctl.SetNormal | ctl.js:111-129 | the fields change exactly as `Control.NormalSet` says, with the listener calls it implies |
| Ctl.Ctl.SetMin | ctl.js:150-172 | the fields change exactly as `Control.MinSet` says, with the listener calls it implies |
| Ctl.Ctl.SetMax | ctl.js:173-195 | the fields change exactly as `Control.MaxSet` says, with the listener calls it implies |
| Ctl.Ctl.SetStep | ctl.js:197-211 | the fields change exactly as `Control.StepSet` says, with the listener calls it implies |
| Ctl.Ctl.SetWarp | ctl.js:98-109 | the fields change exactly as `Control.WarpSet` says, and the listeners are untouched |
| Ctl.Ctl.Bind | ctl.js:263-265 | the listener list becomes `Listeners.Bound` of the old one, and the value state is unchanged |
| Ctl.Ctl.Unbind | ctl.js:271-274 | the listener list becomes `Listeners.Unbound` of the old one, and the value state is unchanged |
| Ctl.NewCtl | ctl.js:37-56 | construction fails exactly when option parsing fails, with its error; otherwise a fresh control in the starting state of the parsed configuration, with no listeners |
| Ctl.ValueOptionExample | test/tests.js:66-82 | `new Ctl({value: 0.87})` starts at 0.87 |
| Ctl.RateExample | test/tests.js:229-269 | the rate example control starts with min 1.125, value 2 and max 8 |
| CVSlider.CVSlider.constructor | cvslider.js:47-205 | the new control holds the starting state of its configuration, has no listeners, and has the formatter of its width, precision and direction; without a `numCharacters` option the width is the intended default width |
| CVSlider.CVSlider.Update | cvslider.js:207-229 | `update` calls every listener in order with the current value and normal |
| CVSlider.CVSlider.Display | cvslider.js:213-215 | the redraw text is the formatter's text for the value, whose first character is '-' for a negative value and the pad character otherwise |
| CVSlider.CVSlider.SetValue | cvslider.js:126-145 | the fields change exactly as `Control.ValueSet` says, with the listener calls it implies |
| CVSlider.CVSlider.SetNormal | cvslider.js:107-125 | the fields change exactly as `Control.NormalSet` says, with the listener calls it implies |
| CVSlider.CVSlider.SetMin | cvslider.js:146-163 | the fields change exactly as `Control.MinSet` says, with the listener calls it implies |
| CVSlider.CVSlider.SetMax | cvslider.js:164-181 | the fields change exactly as `Control.MaxSet` says, with the listener calls it implies |
| CVSlider.CVSlider.SetStep | cvslider.js:184-193 | the fields change exactly as `Control.StepSet` says, with the listener calls it implies |
| CVSlider.CVSlider.SetWarp | cvslider.js:96-106 | the fields change exactly as `Control.WarpSet` says |
| CVSlider.CVSlider.Bind | cvslider.js:232-234 | the listener list becomes `Listeners.Bound` of the old one |
| CVSlider.CVSlider.Unbind | cvslider.js:237-240 | the listener list becomes `Listeners.Unbound` of the old one |
| CVSlider.NewCVSlider | cvslider.js:47-62 | construction fails exactly when option parsing fails, with its error; otherwise a fresh control in the starting state of the parsed configuration |
| Decimal.ToFixed | ctl.js:532 | `toFixed(d)`: a sign exactly for negative numbers, exactly d fraction digits, at least one whole digit, all of them decimal digits |
| Decimal.ToFixedSpellsScaled | ctl.js:532 | the digits of `toFixed(d)` spell the magnitude times 10^d, rounded |
| Decimal.ToFixedAbs | ctl.js:545 | `Math.abs(value).toFixed(p)` is `value.toFixed(p)` without the sign |
| Decimal.FractionDigits | ctl.js:60 | the number of characters after the point in the step's text: the least count of decimal places that makes the step whole |
| Decimal.DigitCount | cvslider.js:668-675 | a number whose digits are used up after exactly k divisions by ten has k digits |
| Decimal.DigitsRoundTrip | ctl.js:532 | the decimal digits of n spell n |

## Left out

- The DOM: `createDOM`, the input and container elements, CSS classes, rendering geometry,
  `requestAnimFrame`, the `change` event, and the mouse, wheel and keyboard handlers. `update`
  is modelled as its listener loop. The number the redraw shows is given by `Display`.
- The jQuery plugin, the module exports and the single-file build script.
- String arguments to the setters: `parseFloat` and the string test are left out. An argument
  is a number or NaN (`Input`).
- IEEE-754 arithmetic. Numbers are exact reals. Drift such as `0.1 * 3` and `toFixed` results
  at or above 10^21 are not modelled. A step whose text uses exponent notation, or that has more
  than 20 decimal places, is not modelled: `FractionDigits` stops at 21.
- `Math.sqrt`, `Math.log` and `Math.exp` are supplied by the caller. Results about curves that
  use them hold for any functions with the stated laws.
- Warps.MapWithin and Warps.RoundTrip: the `exp` results assume a positive minimum. A later
  `min` of 0 or below gives NaN in the source (the log of a non-positive number); the model's
  log is total, so this case is not captured.
- Warps.WarpNamed: `name in Ctl.warps` also accepts names inherited from `Object.prototype`
  (such as "toString"). The model accepts only the four curves. With such a name the `warp`
  setter stores it and then throws a TypeError, because `Ctl.warps[input].map` is undefined
  (ctl.js:103-105, cvslider.js:101-103). The constructor's check (ctl.js:350, cvslider.js:539)
  lets the name through, and the constructor then throws the same way.
- Options.Merge: both controls' merges treat a function layer alike. In the source, `typeof`
  skips a function while `instanceof Object` copies it.
- Setup.ConfigOf: an option value that is not a number (a numeric attribute string is
  converted first) falls back to the default. A non-whole or negative precision or width falls
  back as well. A string minimum is not treated as <= 0 in the `exp` check. An empty or blank
  numeric attribute passes the `!isNaN` test, so `parseFloat` turns it into NaN
  (ctl.js:309, cvslider.js:507), and that NaN overrides the default min, max or step. The
  model's `Value` cannot hold NaN.
- Telling an element from other arguments (`nodeType`, `instanceof HTMLElement`) and an input
  from a container: the first argument is given already classified (`Target`).
- Re-entrant listeners: a listener that sets the control again while it is being notified is
  not modelled.
- The normal setter does not clamp the rounded value again (`Control.NormalSetOvershoot`). The
  model follows the code here, not the description of the setter.
- A value set beyond a bound lands exactly on that bound only when min and max lie on the step
  grid (`Control.ValueSetBeyondBounds`). The value setter rounds before it clamps, so with a
  bound off the grid it can stop short of the bound (`Control.ValueSetOffGridBound`). The model
  follows the code here, not the description's "clamps to the nearest bound exactly".
- The min and max setters notify only when normal changes, not when the value does
  (`Control.MinSetMovesValueSilently`): on [0, 10] with step 0 and value 0, setting min to 5
  moves the value to 5 and no listener runs. The model follows the code here, not the
  description's "listeners observe the new value after a value change".
- Setup.Initial: the constructor does not order min and max (ctl.js:46-47, cvslider.js:56-57), so
  `min <= max` holds only after a `min` or `max` setter. With min 5 and max 1 the starting
  value is clamped to 1, and `Initial` promises a value in range only when `min <= max`.
- The warp setter does not recompute normal (`Control.WarpSetLeavesNormalStale`), so a control
  after a warp change need not satisfy `Control.Coherent`.
- CVSlider.CVSlider.constructor: without a `numCharacters` option the formatter gets the
  intended default width (`Setup.DefaultNumCharacters`), not the `Math.min` rule at
  cvslider.js:81. For a maximum of 100 or more the redraw text therefore differs from the
  source's (for the `freq` preset, 440 shows three fraction digits where the source shows two);
  the as-written width is kept in `CvFormat.HundredOverflows` (see Findings).
- Both setter classes use the intended step rule, the intended default width and the intended
  formatter flag. The null-skipping merge applies to `Ctl`. The as-written forms are kept beside
  them (see Findings).
- The CVSlider presets' `initial` key is kept as written: the constructor never reads it
  (`CvOptions.PresetLeavesValue`). It is not listed as a finding, because the renaming may be
  deliberate.

## Findings

| source | as written | input that shows it | evidently intended | confidence | as-written member | corrected member |
|---|---|---|---|---|---|---|
| ctl.js:205 | `step = Math.max(Math.min(0, input), max - min)` stores max - min for every request on an ordered range | range -180..180, step 1: stores 360 | clamp the requested step into [0, max - min], as the comment says | high, not executed | Control.StepRuleRotateExample | Control.IntendedStepRule |
| cvslider.js:190 | the same rule, with `self.max - self.min` | range -180..180, step 1: stores 360 | clamp the requested step into [0, max - min] | high, not executed | Control.StepRuleIgnoresInput | Control.StepSet |
| ctl.js:70 | `Math.min(options.max.toFixed().length, 2)` caps the integer part of the default width at 2 characters | rotate preset (max 180, min -180, step 1): width 3, and -180 prints as 4 characters | `Math.max`, so that the maximum's integer digits fit | medium, not executed | CtlFormat.RotateOverflows | CtlFormat.DefaultWidthFits |
| cvslider.js:81 | the same `Math.min(options.max.toFixed().length, 2)` default width | min 0, max 100, step 1: width 2, so 100 prints as 4 characters and 5 as 3 | `Math.max`, so that every value up to the maximum prints at one width | medium, not executed | CvFormat.HundredOverflows | CvFormat.DefaultWidthFits |
| ctl.js:331 | `typeof obj === 'object'` is true for null, so `Object.keys(null)` throws | `new Ctl(null)` | skip null like the other non-objects, as the comment "skip null/empty" says | high, not executed | CtlOptions.NullOptionsThrow | CtlOptions.ParseOptions |
| ctl.js:89 | the constructor passes `fixedWidth`, but the formatter reads `isFixedWidth` (ctl.js:519) | any horizontal control: padding uses plain spaces | pass `isFixedWidth`, so that horizontal controls pad with en spaces | high, not executed | CtlFormat.FixedWidthFlagIgnored | CtlFormat.CtlOptions |
