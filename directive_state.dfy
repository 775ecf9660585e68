/**
 * The fields of `ParallaxDirective` as a value: its inputs, the two private
 * fields that prepareConfig derives (`cssValue`, `isSpecialVal`), the
 * `deprecatedFields` and `whitelistedFields` lists, dynamic field access
 * `this[key]`, and the two generic steps of prepareConfig that work key by key:
 * finding the deprecated fields in use and copying the whitelisted keys of the
 * `config` object onto the directive.
 */
module DirectiveState {
  import opened Wrappers
  import opened ParallaxTypes

  /** The keys `whitelistedFields` lists, one per input. */
  datatype Key =
    | ParallaxCss | ParallaxAxis | ParallaxRatio | ParallaxInitVal | ParallaxIf
    | ScrollerId | Cb | CbContext | CbArgs
    | CssKey | StyleProperty | Axis | Ratio | InitialValue | Disabled
    | ScrollerSelector | ScrollElement | MaxValue | MinValue | CssUnit | ParallaxElement

  /** The property name of each key. */
  function Name(k: Key): string
  {
    match k
    case ParallaxCss => "parallaxCss"
    case ParallaxAxis => "parallaxAxis"
    case ParallaxRatio => "parallaxRatio"
    case ParallaxInitVal => "parallaxInitVal"
    case ParallaxIf => "parallaxIf"
    case ScrollerId => "scrollerId"
    case Cb => "cb"
    case CbContext => "cb_context"
    case CbArgs => "cb_args"
    case CssKey => "cssKey"
    case StyleProperty => "styleProperty"
    case Axis => "axis"
    case Ratio => "ratio"
    case InitialValue => "initialValue"
    case Disabled => "disabled"
    case ScrollerSelector => "scrollerSelector"
    case ScrollElement => "scrollElement"
    case MaxValue => "maxValue"
    case MinValue => "minValue"
    case CssUnit => "cssUnit"
    case ParallaxElement => "parallaxElement"
  }

  /** Distinct keys have distinct names. */
  lemma NameInjective(a: Key, b: Key)
    requires Name(a) == Name(b)
    ensures a == b
  {
  }

  /** `deprecatedFields`, in the order the directive lists them. */
  const DeprecatedFields: seq<Key> :=
    [ParallaxCss, ParallaxAxis, ParallaxRatio, ParallaxInitVal, ParallaxIf,
     ScrollerId, Cb, CbContext, CbArgs]

  /** `whitelistedFields`: the deprecated fields followed by the current ones. */
  const WhitelistedFields: seq<Key> :=
    DeprecatedFields +
    [CssKey, StyleProperty, Axis, Ratio, InitialValue, Disabled,
     ScrollerSelector, ScrollElement, MaxValue, MinValue, CssUnit, ParallaxElement]

  /** The names of a list of keys. */
  function Names(keys: seq<Key>): (r: seq<string>)
    ensures |r| == |keys|
    ensures forall i :: 0 <= i < |keys| ==> r[i] == Name(keys[i])
  {
    if keys == [] then [] else [Name(keys[0])] + Names(keys[1..])
  }

  /** Every key is whitelisted. */
  lemma AllKeysWhitelisted(k: Key)
    ensures k in WhitelistedFields
  {
  }

  /** The first key in `keys` whose name is `key`. */
  function Find(keys: seq<Key>, key: string): (r: Option<Key>)
    ensures r.Some? ==> r.value in keys && Name(r.value) == key
    ensures r.None? ==> forall k :: k in keys ==> Name(k) != key
  {
    if keys == [] then None
    else if Name(keys[0]) == key then Some(keys[0])
    else Find(keys[1..], key)
  }

  /**
   * `whitelistedFields.includes(key)`, answering with the key that has that name:
   * the result is a key exactly when some input is called `key`.
   */
  function FieldNamed(key: string): (r: Option<Key>)
    ensures r.Some? ==> Name(r.value) == key
    ensures r.None? ==> forall k :: Name(k) != key
    ensures r.Some? <==> key in Names(WhitelistedFields)
  {
    var r := Find(WhitelistedFields, key);
    assert forall k :: k in WhitelistedFields by {
      forall k { AllKeysWhitelisted(k); }
    }
    r
  }

  /** The directive's fields, named as in the source (`cb_context` as `cbContext`). */
  datatype Fields = Fields(
    cssKey: string,
    parallaxCss: Option<string>,
    styleProperty: Option<string>,
    parallaxAxis: Option<AxisLetter>,
    axis: Option<AxisLetter>,
    parallaxRatio: Option<real>,
    ratio: Option<real>,
    parallaxInitVal: Option<real>,
    initialValue: Option<real>,
    parallaxIf: Option<bool>,
    disabled: Option<bool>,
    scrollerId: Option<string>,
    scrollerSelector: Option<string>,
    scrollElement: Option<ScrollSource>,
    maxValue: Option<real>,
    minValue: Option<real>,
    cssUnit: string,
    cb: Option<Callback>,
    cbContext: Option<Context>,
    cbArgs: Option<seq<Arg>>,
    parallaxElement: Option<Element>,
    cssValue: Option<string>,
    isSpecialVal: bool)

  /** The field initialisers of the directive. */
  const InputDefaults := Fields(
    cssKey := "backgroundPosition",
    parallaxCss := None,
    styleProperty := Some("backgroundPositionY"),
    parallaxAxis := None,
    axis := Some(Y),
    parallaxRatio := None,
    ratio := Some(-0.7),
    parallaxInitVal := None,
    initialValue := Some(0.0),
    parallaxIf := None,
    disabled := Some(false),
    scrollerId := None,
    scrollerSelector := None,
    scrollElement := None,
    maxValue := None,
    minValue := None,
    cssUnit := "px",
    cb := None,
    cbContext := None,
    cbArgs := None,
    parallaxElement := None,
    cssValue := None,
    isSpecialVal := false)

  function StrValue(o: Option<string>): Value { if o.Some? then Str(o.value) else Undefined }
  function LetterValue(o: Option<AxisLetter>): Value { if o.Some? then Letter(o.value) else Undefined }
  function NumValue(o: Option<real>): Value { if o.Some? then Num(o.value) else Undefined }
  function BoolValue(o: Option<bool>): Value { if o.Some? then Bool(o.value) else Undefined }

  /** `this[k]`: the value of the input named by `k`. */
  function FieldValue(s: Fields, k: Key): Value
  {
    match k
    case ParallaxCss => StrValue(s.parallaxCss)
    case ParallaxAxis => LetterValue(s.parallaxAxis)
    case ParallaxRatio => NumValue(s.parallaxRatio)
    case ParallaxInitVal => NumValue(s.parallaxInitVal)
    case ParallaxIf => BoolValue(s.parallaxIf)
    case ScrollerId => StrValue(s.scrollerId)
    case Cb => if s.cb.Some? then Fn(s.cb.value) else Undefined
    case CbContext => if s.cbContext.Some? then Ctx(s.cbContext.value) else Undefined
    case CbArgs => if s.cbArgs.Some? then Args(s.cbArgs.value) else Undefined
    case CssKey => Str(s.cssKey)
    case StyleProperty => StrValue(s.styleProperty)
    case Axis => LetterValue(s.axis)
    case Ratio => NumValue(s.ratio)
    case InitialValue => NumValue(s.initialValue)
    case Disabled => BoolValue(s.disabled)
    case ScrollerSelector => StrValue(s.scrollerSelector)
    case ScrollElement => if s.scrollElement.Some? then Source(s.scrollElement.value) else Undefined
    case MaxValue => NumValue(s.maxValue)
    case MinValue => NumValue(s.minValue)
    case CssUnit => Str(s.cssUnit)
    case ParallaxElement => if s.parallaxElement.Some? then Elem(s.parallaxElement.value) else Undefined
  }

  /** The values the declared type of input `k` admits. */
  predicate WellTyped(k: Key, v: Value)
  {
    match k
    case CssKey | CssUnit => v.Str?
    case ParallaxCss | StyleProperty | ScrollerId | ScrollerSelector => v.Str? || v.Undefined?
    case ParallaxAxis | Axis => v.Letter? || v.Undefined?
    case ParallaxRatio | Ratio | ParallaxInitVal | InitialValue | MaxValue | MinValue => v.Num? || v.Undefined?
    case ParallaxIf | Disabled => v.Bool? || v.Undefined?
    case ScrollElement => v.Source? || v.Undefined?
    case Cb => v.Fn? || v.Undefined?
    case CbContext => v.Ctx? || v.Undefined?
    case CbArgs => v.Args? || v.Undefined?
    case ParallaxElement => v.Elem? || v.Undefined?
  }

  /** A `config` object whose whitelisted keys carry values of the inputs' types. */
  predicate WellTypedConfig(cfg: Config)
  {
    forall k :: Name(k) in cfg ==> WellTyped(k, cfg[Name(k)])
  }

  function OptStr(v: Value): Option<string> { if v.Str? then Some(v.s) else None }
  function OptLetter(v: Value): Option<AxisLetter> { if v.Letter? then Some(v.letter) else None }
  function OptNum(v: Value): Option<real> { if v.Num? then Some(v.n) else None }
  function OptBool(v: Value): Option<bool> { if v.Bool? then Some(v.b) else None }

  /** `this[k] = v`. */
  function SetField(s: Fields, k: Key, v: Value): Fields
    requires WellTyped(k, v)
  {
    match k
    case ParallaxCss => s.(parallaxCss := OptStr(v))
    case ParallaxAxis => s.(parallaxAxis := OptLetter(v))
    case ParallaxRatio => s.(parallaxRatio := OptNum(v))
    case ParallaxInitVal => s.(parallaxInitVal := OptNum(v))
    case ParallaxIf => s.(parallaxIf := OptBool(v))
    case ScrollerId => s.(scrollerId := OptStr(v))
    case Cb => s.(cb := if v.Fn? then Some(v.callback) else None)
    case CbContext => s.(cbContext := if v.Ctx? then Some(v.context) else None)
    case CbArgs => s.(cbArgs := if v.Args? then Some(v.args) else None)
    case CssKey => s.(cssKey := v.s)
    case StyleProperty => s.(styleProperty := OptStr(v))
    case Axis => s.(axis := OptLetter(v))
    case Ratio => s.(ratio := OptNum(v))
    case InitialValue => s.(initialValue := OptNum(v))
    case Disabled => s.(disabled := OptBool(v))
    case ScrollerSelector => s.(scrollerSelector := OptStr(v))
    case ScrollElement => s.(scrollElement := if v.Source? then Some(v.source) else None)
    case MaxValue => s.(maxValue := OptNum(v))
    case MinValue => s.(minValue := OptNum(v))
    case CssUnit => s.(cssUnit := v.s)
    case ParallaxElement => s.(parallaxElement := if v.Elem? then Some(v.element) else None)
  }

  /** Reading a field after writing it gives the value written. */
  lemma SetFieldWritten(s: Fields, k: Key, v: Value)
    requires WellTyped(k, v)
    ensures FieldValue(SetField(s, k, v), k) == v
  {
    match k
    case ParallaxCss =>
    case ParallaxAxis =>
    case ParallaxRatio =>
    case ParallaxInitVal =>
    case ParallaxIf =>
    case ScrollerId =>
    case Cb =>
    case CbContext =>
    case CbArgs =>
    case CssKey =>
    case StyleProperty =>
    case Axis =>
    case Ratio =>
    case InitialValue =>
    case Disabled =>
    case ScrollerSelector =>
    case ScrollElement =>
    case MaxValue =>
    case MinValue =>
    case CssUnit =>
    case ParallaxElement =>
  }

  /** Writing a field leaves every other field as it was. */
  lemma SetFieldFrame(s: Fields, k: Key, v: Value, j: Key)
    requires WellTyped(k, v) && j != k
    ensures FieldValue(SetField(s, k, v), j) == FieldValue(s, j)
  {
    match k
    case ParallaxCss =>
    case ParallaxAxis =>
    case ParallaxRatio =>
    case ParallaxInitVal =>
    case ParallaxIf =>
    case ScrollerId =>
    case Cb =>
    case CbContext =>
    case CbArgs =>
    case CssKey =>
    case StyleProperty =>
    case Axis =>
    case Ratio =>
    case InitialValue =>
    case Disabled =>
    case ScrollerSelector =>
    case ScrollElement =>
    case MaxValue =>
    case MinValue =>
    case CssUnit =>
    case ParallaxElement =>
  }

  /** Reading a field after writing it gives the value written; every other field keeps its value. */
  lemma FieldValueAfterSetField(s: Fields, k: Key, v: Value, j: Key)
    requires WellTyped(k, v)
    ensures FieldValue(SetField(s, k, v), j) == if j == k then v else FieldValue(s, j)
  {
    if j == k {
      SetFieldWritten(s, k, v);
    } else {
      SetFieldFrame(s, k, v, j);
    }
  }

  /** The value `this[k]` determines the field it reads (one key at a time). */
  lemma SameFieldValue(a: Fields, b: Fields, k: Key)
    requires FieldValue(a, k) == FieldValue(b, k)
    ensures k == CssKey ==> a.cssKey == b.cssKey
    ensures k == ParallaxCss ==> a.parallaxCss == b.parallaxCss
    ensures k == StyleProperty ==> a.styleProperty == b.styleProperty
    ensures k == ParallaxAxis ==> a.parallaxAxis == b.parallaxAxis
    ensures k == Axis ==> a.axis == b.axis
    ensures k == ParallaxRatio ==> a.parallaxRatio == b.parallaxRatio
    ensures k == Ratio ==> a.ratio == b.ratio
    ensures k == ParallaxInitVal ==> a.parallaxInitVal == b.parallaxInitVal
    ensures k == InitialValue ==> a.initialValue == b.initialValue
    ensures k == ParallaxIf ==> a.parallaxIf == b.parallaxIf
    ensures k == Disabled ==> a.disabled == b.disabled
    ensures k == ScrollerId ==> a.scrollerId == b.scrollerId
    ensures k == ScrollerSelector ==> a.scrollerSelector == b.scrollerSelector
    ensures k == ScrollElement ==> a.scrollElement == b.scrollElement
    ensures k == MaxValue ==> a.maxValue == b.maxValue
    ensures k == MinValue ==> a.minValue == b.minValue
    ensures k == CssUnit ==> a.cssUnit == b.cssUnit
    ensures k == Cb ==> a.cb == b.cb
    ensures k == CbContext ==> a.cbContext == b.cbContext
    ensures k == CbArgs ==> a.cbArgs == b.cbArgs
    ensures k == ParallaxElement ==> a.parallaxElement == b.parallaxElement
  {
    match k
    case ParallaxCss =>
    case ParallaxAxis =>
    case ParallaxRatio =>
    case ParallaxInitVal =>
    case ParallaxIf =>
    case ScrollerId =>
    case Cb =>
    case CbContext =>
    case CbArgs =>
    case CssKey =>
    case StyleProperty =>
    case Axis =>
    case Ratio =>
    case InitialValue =>
    case Disabled =>
    case ScrollerSelector =>
    case ScrollElement =>
    case MaxValue =>
    case MinValue =>
    case CssUnit =>
    case ParallaxElement =>
  }

  /** Two states that agree on every input and on the private fields are equal. */
  lemma Extensionality(a: Fields, b: Fields)
    requires forall k :: FieldValue(a, k) == FieldValue(b, k)
    requires a.cssValue == b.cssValue && a.isSpecialVal == b.isSpecialVal
    ensures a == b
  {
    SameFieldValue(a, b, CssKey);
    SameFieldValue(a, b, ParallaxCss);
    SameFieldValue(a, b, StyleProperty);
    SameFieldValue(a, b, ParallaxAxis);
    SameFieldValue(a, b, Axis);
    SameFieldValue(a, b, ParallaxRatio);
    SameFieldValue(a, b, Ratio);
    SameFieldValue(a, b, ParallaxInitVal);
    SameFieldValue(a, b, InitialValue);
    SameFieldValue(a, b, ParallaxIf);
    SameFieldValue(a, b, Disabled);
    SameFieldValue(a, b, ScrollerId);
    SameFieldValue(a, b, ScrollerSelector);
    SameFieldValue(a, b, ScrollElement);
    SameFieldValue(a, b, MaxValue);
    SameFieldValue(a, b, MinValue);
    SameFieldValue(a, b, CssUnit);
    SameFieldValue(a, b, Cb);
    SameFieldValue(a, b, CbContext);
    SameFieldValue(a, b, CbArgs);
    SameFieldValue(a, b, ParallaxElement);
  }

  /** A deprecated field is in use: set on the directive, or truthy in `config`. */
  predicate InUse(s: Fields, cfg: Config, k: Key)
  {
    FieldValue(s, k) != Undefined || (Name(k) in cfg && Truthy(cfg[Name(k)]))
  }

  /** `sub` lists some of the elements of `xs`, in the order in which `xs` has them. */
  predicate IsSubsequence(sub: seq<Key>, xs: seq<Key>)
    decreases |xs|
  {
    if sub == [] then true
    else if xs == [] then false
    else if sub[0] == xs[0] then IsSubsequence(sub[1..], xs[1..])
    else IsSubsequence(sub, xs[1..])
  }

  /** The keys of `keys` that are in use, kept in order (`Array.prototype.filter`). */
  function UsedAmong(s: Fields, cfg: Config, keys: seq<Key>): (r: seq<Key>)
    ensures forall k :: k in r <==> k in keys && InUse(s, cfg, k)
    ensures IsSubsequence(r, keys)
    decreases |keys|
  {
    if keys == [] then []
    else if InUse(s, cfg, keys[0]) then [keys[0]] + UsedAmong(s, cfg, keys[1..])
    else UsedAmong(s, cfg, keys[1..])
  }

  /** `usedDeprecatedFields`. */
  function UsedDeprecatedFields(s: Fields, cfg: Config): (r: seq<Key>)
    ensures forall k :: k in r <==> k in DeprecatedFields && InUse(s, cfg, k)
    ensures IsSubsequence(r, DeprecatedFields)
  {
    UsedAmong(s, cfg, DeprecatedFields)
  }

  /**
   * The deprecation warnings of prepareConfig: exactly one, naming the fields in
   * use in list order, when any deprecated field is in use; none otherwise.
   */
  function DeprecationWarnings(s: Fields, cfg: Config): (r: seq<Warning>)
    ensures |r| <= 1
    ensures r != [] <==> exists k :: k in DeprecatedFields && InUse(s, cfg, k)
    ensures r != [] ==> r == [DeprecatedFieldsUsed(Names(UsedDeprecatedFields(s, cfg)))]
  {
    var used := UsedDeprecatedFields(s, cfg);
    assert used != [] ==> used[0] in used;
    if |used| > 0 then [DeprecatedFieldsUsed(Names(used))] else []
  }

  /** Copies onto `s` the values `cfg` holds under the names of `keys`, one key after another. */
  function CopyKeys(s: Fields, cfg: Config, keys: seq<Key>): (r: Fields)
    requires WellTypedConfig(cfg)
    ensures forall k :: FieldValue(r, k) ==
              if k in keys && Name(k) in cfg then cfg[Name(k)] else FieldValue(s, k)
    ensures r.cssValue == s.cssValue && r.isSpecialVal == s.isSpecialVal
    decreases |keys|
  {
    if keys == [] then s
    else
      var k0 := keys[0];
      var s' := if Name(k0) in cfg then SetField(s, k0, cfg[Name(k0)]) else s;
      forall j ensures Name(k0) in cfg ==> FieldValue(s', j) == if j == k0 then cfg[Name(k0)] else FieldValue(s, j) {
        if Name(k0) in cfg { FieldValueAfterSetField(s, k0, cfg[Name(k0)], j); }
      }
      CopyKeys(s', cfg, keys[1..])
  }

  /**
   * The copy loop of prepareConfig: every input whose name is a key of `cfg` takes
   * the value stored there, whatever it is; every other input, and the private
   * fields, keep their values.
   */
  function CopyConfig(s: Fields, cfg: Config): (r: Fields)
    requires WellTypedConfig(cfg)
    ensures forall k :: FieldValue(r, k) == if Name(k) in cfg then cfg[Name(k)] else FieldValue(s, k)
    ensures r.cssValue == s.cssValue && r.isSpecialVal == s.isSpecialVal
  {
    forall k ensures k in WhitelistedFields { AllKeysWhitelisted(k); }
    CopyKeys(s, cfg, WhitelistedFields)
  }

  /** A key that names no input leaves the copy unchanged. */
  lemma CopyIgnoresUnlistedKeys(s: Fields, cfg: Config, key: string, v: Value)
    requires WellTypedConfig(cfg)
    requires key !in Names(WhitelistedFields)
    ensures WellTypedConfig(cfg[key := v])
    ensures CopyConfig(s, cfg[key := v]) == CopyConfig(s, cfg)
  {
    assert FieldNamed(key).None?;
    Extensionality(CopyConfig(s, cfg[key := v]), CopyConfig(s, cfg));
  }
}
