# cwdj-parallax: a verified model of the parallax directive

This project models `ParallaxDirective`, the Angular attribute directive of the
cwdj-parallax library, in Dafny. Each scroll event moves one CSS property of an
element in proportion to the scroll offset. The directive has two halves, and
both are modelled:

- **`prepareConfig`** runs once, before the scroll listener is attached. It does
  the following:
  - makes `config` an empty object if none was bound;
  - logs one warning naming every deprecated input in use;
  - copies the whitelisted keys of `config` onto the directive;
  - resolves the derived fields: the style property, the split into `cssKey` and
    a special function name, `ratio` and `initialValue` with their aliases and
    defaults, the target element, the scroll source, `axis` and `disabled`.
- **`evaluateScroll`** runs on each scroll event. Unless the directive is disabled,
  it does the following:
  - computes `offset * ratio + initialValue`;
  - clamps that value, checking `maxValue` before `minValue`;
  - formats the CSS text in one of three shapes;
  - in this order: calls the legacy callback, writes the style, then emits `update`.

## Layout

- `wrappers.dfy`: `Option`.
- `parallax_types.dfy` (module `ParallaxTypes`):
  - the values an input can hold, and JavaScript truthiness on them;
  - the DOM, which is abstracted as lookup functions and scroll offsets;
  - the warnings that `console.warn` logs;
  - the effects of a scroll event.
- `js_strings.dfy` (module `JsStrings`): `String.prototype.includes` and
  `String.prototype.split` for a one-character separator, with their properties.
- `directive_state.dfy` (module `DirectiveState`):
  - the 21 input keys and their property names;
  - the `deprecatedFields` and `whitelistedFields` lists, and the field initialisers;
  - `this[key]` reads and writes;
  - the deprecation check and the copy loop, as functions.
- `resolution.dfy` (module `Resolution`): the resolution half of `prepareConfig`.
  Each rule is a function with its precedence stated in `ensures`.
  - `Resolve` runs the steps in source order.
  - `Prepare` is the whole of `prepareConfig` on values.
- `scroll_value.dfy` (module `ScrollValue`): the clamp, the formatter and the
  effects of one scroll event, with their properties.
- `directive.dfy` (module `Directive`): the class `ParallaxDirective`.
  - Its fields mirror the inputs and private fields.
  - Its methods update them step by step, as the source does.
  - Each method is proved against the functions above.
- `prepare_properties.dfy` (module `PrepareProperties`):
  - properties of `prepareConfig` as a whole;
  - worked examples.

Where the code and the doc comments beside it part ways, the model follows the
code:
- The letter at the end of a `backgroundPosition…` style property overwrites the
  local `axis` (line 312) before line 355 reads it. So an inferred letter beats
  the `axis` and `parallaxAxis` inputs. For example,
  `styleProperty: 'backgroundPositionX'` with `axis: 'Y'` moves along X, as
  `Resolution.ResolveAxis` and `PrepareProperties.InferredAxisWins` state. The
  comments on those inputs (lines 46-55) say only that they give the direction.
  Because the initialiser `styleProperty = 'backgroundPositionY'` is itself of
  that family, `axis` and `parallaxAxis` have no effect unless `styleProperty`
  is given another value: the axis stays Y
  (`PrepareProperties.AxisInputsIgnoredByDefault`).
- A ratio of 0 is documented as "moves with the page" (lines 62 and 74). But
  `+(ratio || parallaxRatio) || -.7` (line 325) turns it into −0.7, so the
  resolved ratio is never 0 (`Resolution.ResolveRatio`).
- The default receiver of the legacy callback is documented as "the provided or
  default 'parallax' element" (line 145). But line 229 binds
  `cb_context || this.hostElement`: the host, even when `parallaxElement` names
  another element. `ScrollValue.CallbackEffects` records the host.

Other consequences of the code that the contracts make explicit:
- An `initialValue` of 0 falls back to `parallaxInitVal`.
- The `cssKey` input is always overwritten by the split of the style property.
- `cssKey` is empty for a style property such as `":scale"`.

## Model

All source cells refer to `projects/cwdj-parallax/src/lib/cwdj-parallax.directive.ts`.

| member | source | states |
|---|---|---|
| Directive.ParallaxDirective.constructor | projects/cwdj-parallax/src/lib/cwdj-parallax.directive.ts:33-164 | Every input and private field starts at its initialiser (`InputDefaults`). No config, warnings or effects yet. |
| Directive.ParallaxDirective.Bind | projects/cwdj-parallax/src/lib/cwdj-parallax.directive.ts:285 | `this[key] = value`: the input named by the key takes the value. Every other field, the config, the warnings and the effects are unchanged. |
| Directive.ParallaxDirective.BindConfig | projects/cwdj-parallax/src/lib/cwdj-parallax.directive.ts:23 | Angular binding the `config` input: only `config` takes the new object. The inputs, the private fields, the warnings and the effects are unchanged; nothing is copied until `prepareConfig`. |
| Directive.ParallaxDirective.PrepareConfig | projects/cwdj-parallax/src/lib/cwdj-parallax.directive.ts:268-358 | `config` becomes `config \|\| {}`. The new state and the appended warnings are those of `Prepare` on the old state and that object: the deprecation check, then the copy, then the resolution. No effect happens. |
| Directive.ParallaxDirective.ApplyConfig | projects/cwdj-parallax/src/lib/cwdj-parallax.directive.ts:271-357 | Once `config` is an object, the fields become `Prepare(...).fields`. The log grows by the deprecation warning, then by the lookup warning. |
| Directive.ParallaxDirective.WarnDeprecated | projects/cwdj-parallax/src/lib/cwdj-parallax.directive.ts:271-281 | Appends exactly `DeprecationWarnings` of the current fields and `config`, and changes nothing else. |
| Directive.ParallaxDirective.CopyAndResolve | projects/cwdj-parallax/src/lib/cwdj-parallax.directive.ts:283-357 | The copy loop followed by the resolution steps reaches `Resolve(CopyConfig(old state, config))`. |
| Directive.ParallaxDirective.CopyConfigFields | projects/cwdj-parallax/src/lib/cwdj-parallax.directive.ts:283-287 | The `for…in` loop, taking keys in any order, reaches `CopyConfig(old state, config)`. This is proved by a loop invariant over the keys still to visit. |
| Directive.ParallaxDirective.CopyKey | projects/cwdj-parallax/src/lib/cwdj-parallax.directive.ts:284-285 | One loop turn: exactly the input whose name is the key takes `config[key]`. A key naming no input changes nothing. |
| Directive.ParallaxDirective.ResolveFields | projects/cwdj-parallax/src/lib/cwdj-parallax.directive.ts:289-357 | The ten field assignments, in source order, reach `Resolve` of the state after the copy, and append its warnings. |
| Directive.ParallaxDirective.ResolveStyleFields | projects/cwdj-parallax/src/lib/cwdj-parallax.directive.ts:307-323 | The style fields become `SplitStep(StyleStep(old state))`. The returned local `axis` is the inferred letter if there is one, else the `axis` input. |
| Directive.ParallaxDirective.ResolveStyleProperty | projects/cwdj-parallax/src/lib/cwdj-parallax.directive.ts:307-316 | `styleProperty \|\| parallaxCss \|\| 'backgroundPositionY'`, collapsed to `backgroundPosition` for that family. The local `axis` is replaced by the trailing X/Y letter. |
| Directive.ParallaxDirective.SplitStyleProperty | projects/cwdj-parallax/src/lib/cwdj-parallax.directive.ts:318-323 | `cssKey` and `cssValue` are the first two `:`-segments. `isSpecialVal` is the truthiness of the second, and the key stands in when it is falsy. |
| Directive.ParallaxDirective.ResolveNumbers | projects/cwdj-parallax/src/lib/cwdj-parallax.directive.ts:325-326 | `ratio` and `initialValue` become `NumberStep` of the old state, i.e. `ResolveRatio` and `ResolveInitialValue`. |
| Directive.ParallaxDirective.ResolveTarget | projects/cwdj-parallax/src/lib/cwdj-parallax.directive.ts:328 | `parallaxElement \|\| hostElement`. |
| Directive.ParallaxDirective.ResolveScroller | projects/cwdj-parallax/src/lib/cwdj-parallax.directive.ts:330-353 | The scroll source and warning of `ResolveScrollSource`. |
| Directive.ParallaxDirective.ResolveSwitches | projects/cwdj-parallax/src/lib/cwdj-parallax.directive.ts:355-357 | `axis` becomes local axis, else `parallaxAxis`, else Y. `disabled` becomes `ResolveDisabled`. |
| Directive.ParallaxDirective.EvaluateScroll | projects/cwdj-parallax/src/lib/cwdj-parallax.directive.ts:198-235 | The effects grow by exactly `ScrollEffects`. That is nothing when disabled; otherwise the callback if one is set, the style write of the formatted clamped value, and the `update` emit. |
| Directive.ParallaxDirective.ScrollPosition | projects/cwdj-parallax/src/lib/cwdj-parallax.directive.ts:204-212 | The window's `scrollY` or the element's `scrollTop`, times `ratio`, plus `initialValue`, clamped with the maximum first (`ScrollResult`). |
| Directive.ParallaxDirective.CssText | projects/cwdj-parallax/src/lib/cwdj-parallax.directive.ts:215-225 | The CSS text is `Format` of the current fields. |
| DirectiveState.FieldNamed | projects/cwdj-parallax/src/lib/cwdj-parallax.directive.ts:284 | `whitelistedFields.includes(key)`. The answer is a key exactly when the name is whitelisted, and that key's name is `key`. |
| DirectiveState.FieldValueAfterSetField | projects/cwdj-parallax/src/lib/cwdj-parallax.directive.ts:285 | After `this[k] = v`, reading `k` gives `v` and every other input reads as before. |
| DirectiveState.UsedAmong | projects/cwdj-parallax/src/lib/cwdj-parallax.directive.ts:271-272 | The filter keeps exactly the listed keys that are `!== undefined` on the directive or truthy in `config`, in list order (a subsequence). |
| DirectiveState.UsedDeprecatedFields | projects/cwdj-parallax/src/lib/cwdj-parallax.directive.ts:167-177 | `usedDeprecatedFields` holds exactly the deprecated fields in use, in the order of `deprecatedFields`. |
| DirectiveState.DeprecationWarnings | projects/cwdj-parallax/src/lib/cwdj-parallax.directive.ts:271-281 | At most one warning. There is one exactly when some deprecated field is in use, and it names all the used fields in list order. |
| DirectiveState.CopyConfig | projects/cwdj-parallax/src/lib/cwdj-parallax.directive.ts:283-287 | Every input whose name is a key of `config` takes the stored value, whatever it is. Every other input and both private fields keep theirs. |
| DirectiveState.CopyIgnoresUnlistedKeys | projects/cwdj-parallax/src/lib/cwdj-parallax.directive.ts:178-192 | Adding a key outside `whitelistedFields` to `config` leaves the copy unchanged. |
| JsStrings.IncludesIsOccurrence | projects/cwdj-parallax/src/lib/cwdj-parallax.directive.ts:308 | `includes` holds exactly when the text occurs at some index. |
| JsStrings.SplitHead | projects/cwdj-parallax/src/lib/cwdj-parallax.directive.ts:318 | The first part of `split(':')` is the separator-free text before the first `:`. There is a second part exactly when `:` occurs, and the later parts are the split of the rest. |
| JsStrings.JoinSplit | projects/cwdj-parallax/src/lib/cwdj-parallax.directive.ts:318 | Joining the parts of a split with the separator gives back the string, so the split loses nothing. |
| Resolution.StyleSource | projects/cwdj-parallax/src/lib/cwdj-parallax.directive.ts:307 | `styleProperty \|\| parallaxCss \|\| 'backgroundPositionY'` by cases on truthiness. The result is never empty. |
| Resolution.SplitStyle | projects/cwdj-parallax/src/lib/cwdj-parallax.directive.ts:318-320 | The key is the leading `:`-free segment. There is a value exactly when the key stops short of the string, and the value is the next segment. |
| Resolution.ResolveStyle | projects/cwdj-parallax/src/lib/cwdj-parallax.directive.ts:308-323 | A `backgroundPosition…` source gives key and value `backgroundPosition` and is not special, whatever follows a `:`. Any other source keeps the property and takes as key the text before the first `:`. It is special exactly when the second segment is non-empty; then that segment is the value, otherwise the value is the key. |
| Resolution.ResolveStyleSteps | projects/cwdj-parallax/src/lib/cwdj-parallax.directive.ts:308-323 | `ResolveStyle` equals the source's own order of steps: collapse, split, fall back to the key. |
| Resolution.InferredAxis | projects/cwdj-parallax/src/lib/cwdj-parallax.directive.ts:308-313 | Defined by cases: the upper-cased last character of a `backgroundPosition…` source, when it is X or Y. `PrepareProperties.InferredAxisWins` and `Resolution.ResolveAxis` state that this letter beats both axis inputs. |
| Resolution.ResolveAxis | projects/cwdj-parallax/src/lib/cwdj-parallax.directive.ts:355 | The inferred letter wins over both inputs (line 312), then `axis`, then `parallaxAxis`, then `'Y'`. |
| Resolution.ResolveRatio | projects/cwdj-parallax/src/lib/cwdj-parallax.directive.ts:325 | A truthy `ratio`, else a truthy `parallaxRatio`, else −0.7. The result is never 0. |
| Resolution.ResolveInitialValue | projects/cwdj-parallax/src/lib/cwdj-parallax.directive.ts:326 | A truthy `initialValue`, else a truthy `parallaxInitVal`, else 0. |
| Resolution.ResolveDisabled | projects/cwdj-parallax/src/lib/cwdj-parallax.directive.ts:357 | Disabled exactly when `disabled` is true or `parallaxIf` is defined and false. |
| Resolution.ResolveScrollSource | projects/cwdj-parallax/src/lib/cwdj-parallax.directive.ts:330-353 | An explicit element is kept with no warning. Otherwise a truthy selector is looked up; only without one is a truthy ID looked up. A failed lookup gives the window and one warning naming what was not found. With neither, it is the window with no warning. |
| Resolution.ResolveFieldByField | projects/cwdj-parallax/src/lib/cwdj-parallax.directive.ts:307-357 | The resolution changes exactly the ten derived fields, each by its rule above. It logs exactly the lookup warning. |
| Resolution.Resolve | projects/cwdj-parallax/src/lib/cwdj-parallax.directive.ts:307-357 | Defined as the resolution steps in source order on the state after the copy. `Resolution.ResolveFieldByField` states what it computes, field by field, and its one lookup warning. |
| Resolution.Prepare | projects/cwdj-parallax/src/lib/cwdj-parallax.directive.ts:268-358 | Defined as the deprecation check on the inputs as bound, then the copy, then `Resolve`. `Directive.ParallaxDirective.PrepareConfig` is proved to reach it, and `PrepareProperties.PrepareIsReady`, `PrepareIgnoresUnlistedKeys` and `PreparedFormat` state its properties. |
| ScrollValue.Clamp | projects/cwdj-parallax/src/lib/cwdj-parallax.directive.ts:209-212 | Defined by cases, the maximum tested first. `ClampMaxFirst`, `ClampIsOneOf`, `ClampOneSided`, `ClampOrderedBounds`, `ClampMonotonic` and `ClampInvertedBounds` state its properties. |
| ScrollValue.ClampMaxFirst | projects/cwdj-parallax/src/lib/cwdj-parallax.directive.ts:209-210 | At or above a defined maximum the result is the maximum, whatever the minimum. |
| ScrollValue.ClampIsOneOf | projects/cwdj-parallax/src/lib/cwdj-parallax.directive.ts:209-212 | The result is the raw value or one of the defined bounds. |
| ScrollValue.ClampOneSided | projects/cwdj-parallax/src/lib/cwdj-parallax.directive.ts:209-212 | A lone maximum is never exceeded and a lone minimum never undercut. With no bounds the value is unchanged. |
| ScrollValue.ClampOrderedBounds | projects/cwdj-parallax/src/lib/cwdj-parallax.directive.ts:209-212 | With `minValue <= maxValue` the clamp is `max(min, min(max, raw))`. It lies in `[minValue, maxValue]` and is idempotent. |
| ScrollValue.ClampMonotonic | projects/cwdj-parallax/src/lib/cwdj-parallax.directive.ts:209-212 | When the bounds are not inverted, a larger raw value never gives a smaller result. |
| ScrollValue.ClampInvertedBounds | projects/cwdj-parallax/src/lib/cwdj-parallax.directive.ts:209-212 | With the maximum below the minimum, the max-first order breaks monotonicity. A value just under the maximum becomes the minimum, which is above the maximum. The minimum itself is sent to the maximum. |
| ScrollValue.Format | projects/cwdj-parallax/src/lib/cwdj-parallax.directive.ts:215-225 | Defined by the three branches of `resultVal`. `FormatEmbedsNumber` states that each shape holds the number followed by the unit, and `PrepareProperties.PreparedFormat` which shape applies after `prepareConfig`. |
| ScrollValue.FormatEmbedsNumber | projects/cwdj-parallax/src/lib/cwdj-parallax.directive.ts:215-225 | Every one of the three shapes of CSS text contains the number followed by the unit. |
| ScrollValue.CallbackEffects | projects/cwdj-parallax/src/lib/cwdj-parallax.directive.ts:227-229 | Defined as the one legacy-callback call, when `cb` is set. `ScrollValue.CallbackReceiver` states its receiver and arguments. |
| ScrollValue.CallbackReceiver | projects/cwdj-parallax/src/lib/cwdj-parallax.directive.ts:227-229 | In an enabled directive with `cb` set, the first effect calls `cb` with the event. The receiver is `cb_context` when bound, otherwise the host, not `parallaxElement` when that names another element. The arguments are `cb_args`, or none. |
| ScrollValue.ScrollEffects | projects/cwdj-parallax/src/lib/cwdj-parallax.directive.ts:198-234 | Defined as nothing when disabled, otherwise the callback effects, the style write and the emit. `DisabledIsInert`, `EnabledEffectOrder` and `CallbackReceiver` state its properties. |
| ScrollValue.DisabledIsInert | projects/cwdj-parallax/src/lib/cwdj-parallax.directive.ts:199 | A disabled directive calls no callback, writes no style and emits nothing. |
| ScrollValue.EnabledEffectOrder | projects/cwdj-parallax/src/lib/cwdj-parallax.directive.ts:227-234 | In an enabled directive, the callback comes first and only when set. Then comes the write of the formatted value to `parallaxElement.style[cssKey]`, then the one `update` emit, last. |
| PrepareProperties.PrepareIsReady | projects/cwdj-parallax/src/lib/cwdj-parallax.directive.ts:325-357 | After `prepareConfig`, `ratio`, `initialValue`, `scrollElement`, `parallaxElement`, `axis`, `disabled` and `styleProperty` are defined. A special value is always present when `isSpecialVal` holds. These are the fields `evaluateScroll` reads that could otherwise be undefined. |
| PrepareProperties.InferredAxisWins | projects/cwdj-parallax/src/lib/cwdj-parallax.directive.ts:308-316 | A `backgroundPosition…` property ending in x/X/y/Y sets the axis to that letter, whatever `axis` and `parallaxAxis` hold. The property becomes `backgroundPosition`, non-special. |
| PrepareProperties.AxisInputsIgnoredByDefault | projects/cwdj-parallax/src/lib/cwdj-parallax.directive.ts:307-316 | With the style property at its initialiser `backgroundPositionY`, no `parallaxCss` and no `config`, the resolved axis is Y whatever `axis` and `parallaxAxis` hold, so the documented direction inputs (lines 46-55) have no effect. |
| PrepareProperties.SelectorShadowsId | projects/cwdj-parallax/src/lib/cwdj-parallax.directive.ts:330-341 | With no explicit element and a truthy selector, the scroll source and the warnings do not depend on `scrollerId`. |
| PrepareProperties.DeprecationIgnoresUnlistedKeys | projects/cwdj-parallax/src/lib/cwdj-parallax.directive.ts:271-272 | A `config` key naming no input does not change the deprecation warning. |
| PrepareProperties.PrepareIgnoresUnlistedKeys | projects/cwdj-parallax/src/lib/cwdj-parallax.directive.ts:283-287 | A `config` key naming no input changes neither the resulting state nor the warnings of `prepareConfig`. |
| PrepareProperties.UsedAmongAtMostOne | projects/cwdj-parallax/src/lib/cwdj-parallax.directive.ts:271-272 | Filtering distinct keys of which at most one is in use yields that key alone, or nothing. |
| PrepareProperties.CopySingleKey | projects/cwdj-parallax/src/lib/cwdj-parallax.directive.ts:283-287 | Copying a one-key `config` is the single write `this[key] = value`. |
| PrepareProperties.DefaultsExample | projects/cwdj-parallax/src/lib/cwdj-parallax.directive.ts:268-358 | With every input at its initialiser and no `config`: the style property becomes `backgroundPosition` on axis Y with value `backgroundPosition`; the target is the host and the scroll source the window. Nothing else changes, and no warning is logged. |
| PrepareProperties.DefaultsDeprecationFree | projects/cwdj-parallax/src/lib/cwdj-parallax.directive.ts:167-177 | No deprecated input has an initialiser, so the initialisers alone draw no deprecation warning. |
| PrepareProperties.DefaultsResolve | projects/cwdj-parallax/src/lib/cwdj-parallax.directive.ts:307-357 | The resolution of the initialisers, field by field. |
| PrepareProperties.DefaultsResolveWarningFree | projects/cwdj-parallax/src/lib/cwdj-parallax.directive.ts:330-357 | Without element, selector or ID, resolution logs nothing; `disabled` is set from `disabled` and `parallaxIf`. |
| PrepareProperties.ParallaxIfConfigExample | projects/cwdj-parallax/src/lib/cwdj-parallax.directive.ts:271-287 | The check reads `config` for truthiness before the copy. `{parallaxIf: false}` draws no warning yet disables the directive. `{parallaxIf: true}` draws one warning naming `parallaxIf` and leaves it enabled. |
| PrepareProperties.ParallaxIfDeprecation | projects/cwdj-parallax/src/lib/cwdj-parallax.directive.ts:271-272 | On the initialisers with `config` `{parallaxIf: b}`, the used deprecated fields are `[parallaxIf]` when `b` holds and none otherwise. |
| PrepareProperties.SpecialValueExample | projects/cwdj-parallax/src/lib/cwdj-parallax.directive.ts:318-323 | `opacity:scale` resolves to key `opacity` with the special value `scale`. |
| PrepareProperties.PreparedFormat | projects/cwdj-parallax/src/lib/cwdj-parallax.directive.ts:215-225 | After `prepareConfig`, the CSS text for number `v` is decided by the style property in force. A `backgroundPosition…` property gives `v unit 0` on axis X and `0 v unit` otherwise. A special property `key:name` gives `name(v unit)`. Any other property gives `v unit`. |
| PrepareProperties.ResolvedFormat | projects/cwdj-parallax/src/lib/cwdj-parallax.directive.ts:215-225 | The same three shapes of lines 215-225 for the resolution steps alone, applied to the style fields that lines 307-323 produce from the state after the copy. |
| PrepareProperties.FormatOfStyle | projects/cwdj-parallax/src/lib/cwdj-parallax.directive.ts:215-225 | On style fields resolved from a source, the formatter picks the `backgroundPosition` shapes exactly for that family. A key taken from any other source is never `backgroundPosition`. |
| PrepareProperties.CopyEmptyConfig | projects/cwdj-parallax/src/lib/cwdj-parallax.directive.ts:269-287 | With `config` defaulted to `{}`, the copy loop changes nothing. |
| PrepareProperties.OpacityScaleScrollExample | projects/cwdj-parallax/src/lib/cwdj-parallax.directive.ts:198-235 | `styleProperty: 'opacity:scale'`, ratio 1, unit `''`, and the window scrolled to 10. The scroll event writes `scale(10)` to the host's `opacity`, then emits `update`. |
| PrepareProperties.OpacityScaleResolved | projects/cwdj-parallax/src/lib/cwdj-parallax.directive.ts:307-357 | The resolution of that example, field by field: key `opacity`, special value `scale`, initial value 0, the host as target, the window as scroll source. |
| PrepareProperties.OpacityScaleScroll | projects/cwdj-parallax/src/lib/cwdj-parallax.directive.ts:204-234 | On those resolved fields, the value is 10 and the effects are the style write of `scale(10)`, then the emit. |
| PrepareProperties.BackgroundPositionXExample | projects/cwdj-parallax/src/lib/cwdj-parallax.directive.ts:198-235 | `styleProperty: 'backgroundPositionX'`, ratio 1, the other inputs at their initialisers (axis Y, unit `px`), and the window scrolled to 100. After `prepareConfig` the axis is X: the trailing letter overrides the `axis` initialiser (line 312). The scroll event writes `100px 0` to the host's `backgroundPosition`, then emits `update`. |
| PrepareProperties.BackgroundPositionXResolved | projects/cwdj-parallax/src/lib/cwdj-parallax.directive.ts:307-357 | The resolution of that example, field by field: style property, key and value `backgroundPosition`, axis X, the host as target, the window as scroll source. |
| PrepareProperties.BackgroundPositionXScroll | projects/cwdj-parallax/src/lib/cwdj-parallax.directive.ts:204-234 | On those resolved fields, the value is 100 and the effects are the style write of `100px 0` to `backgroundPosition`, then the emit. |
| PrepareProperties.MissingSelectorExample | projects/cwdj-parallax/src/lib/cwdj-parallax.directive.ts:331-338 | A selector that matches nothing gives the window and exactly one warning naming the selector. |
| PrepareProperties.InvertedClampExample | projects/cwdj-parallax/src/lib/cwdj-parallax.directive.ts:209-212 | With max 10 and min 50, a raw 30 is clamped to 10. |

## Left out

- Angular lifecycle and dependency injection are not modelled: `ngAfterViewInit`, `ngOnChanges`, `ngOnDestroy`, `isPlatformBrowser`, `PLATFORM_ID`, `ElementRef`, adding and removing the listener, and the simulated scroll event of `prepareParallax` (lines 237-266). `hasInitialized` is never set to true (line 166), so `ngOnChanges` always returns at once. The model has no re-resolve path.
- The DOM is a `Dom` value. `document.querySelector` and `getElementById` are lookup functions; `scrollY` and `scrollTop` are numbers it supplies. `window` is the `WindowSource` value, and `style[cssKey] = …` is a recorded `StyleWritten` effect.
- `document.querySelector` throws a `SyntaxError` on an invalid selector, such as `"[["`. That exception escapes `prepareConfig`, so the listener is never attached (line 241). The model's lookup always answers, found or not found. So the promise of `Resolution.ResolveScrollSource` ("the window and one warning") covers only selectors the browser accepts. The throwing outcome is not modelled.
- `console.warn` messages and the `Error`/`TypeError` objects: a warning records only its kind and the fields, selector or ID it names.
- The legacy callback is foreign code. Its call is recorded as an effect carrying the receiver (`cb_context || hostElement`), the event and `cb_args || []`. A `cb` that throws aborts `evaluateScroll` at line 229, so the style write (line 232) and the emit (line 234) never happen, whereas `ScrollEffects` always records both. A falsy `cb_context` (`0` or `''`) falls back to the host in the source; the model's `Context` has no falsy value, so a bound context is always the receiver.
- Numbers are reals. IEEE-754 rounding and `NaN` are not modelled. JavaScript's number-to-string is the parameter `toStr` of `EvaluateScroll`.
- Unary `+` on a non-numeric string is not modelled: the numeric inputs hold numbers or nothing. `null` inputs are not distinguished from `undefined`.
- `projects/cwdj-parallax/src/lib/types.ts` (an interface only) is mirrored by the `Value` union and `WellTypedConfig`. `projects/cwdj-parallax/src/lib/cwdj-parallax.module.ts` and `projects/cwdj-parallax/src/lib/cwdj-parallax.component.spec.ts` are not part of this model.
- The `public styles = {}` and `name` fields are left out. They are never read by the modelled code.
- Directive.ParallaxDirective.PrepareConfig: requires a `config` whose whitelisted keys hold values of the inputs' declared types, which the TypeScript types of `IParallaxConfig` demand of callers. An ill-typed value, such as a number for `styleProperty`, is not modelled. `cssKey` and `cssUnit` are plain strings in the model, so `undefined` is refused for them, although `styleProperty`, with the same declared type, accepts it. `config = {cssUnit: undefined}` makes the source write `12undefined`-style text, such as `"0 12undefined"`. That case is not modelled. `config = {cssKey: undefined}` is overwritten by the split anyway.
- Directive.ParallaxDirective.EvaluateScroll: requires `Ready`: `ratio`, `initialValue`, `scrollElement` and `parallaxElement` are defined, and a special value is present. `prepareConfig` establishes this before the listener is attached (lines 239-241), as `PrepareProperties.PrepareIsReady` proves. Later events are not covered once Angular rebinds one of those inputs to `undefined`: `ngOnChanges` never re-resolves (line 248), so `Ready` no longer holds. In that case the source computes `NaN` or throws on `parallaxElement.style`, and neither outcome is modelled.
- Directive.ParallaxDirective.ResolveFields: the source first destructures the fields into locals (lines 289-304). The model reads the fields themselves at each step. This is equivalent because no step writes a field that a later step reads, except the split, which reads the new `styleProperty` just as the source does.
- Directive.ParallaxDirective.CopyConfigFields: the `for…in` order of keys is nondeterministic in the model. Distinct keys write distinct fields, so the result does not depend on it.
