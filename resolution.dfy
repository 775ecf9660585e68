/**
 * The resolution half of prepareConfig: after the configuration object has been
 * copied onto the directive, each derived field is computed from the inputs by
 * the precedence and default rules of the directive.
 */
module Resolution {
  import opened Wrappers
  import opened JsStrings
  import opened ParallaxTypes
  import opened DirectiveState

  const DefaultStyleProperty := "backgroundPositionY"
  const BackgroundPosition := "backgroundPosition"
  const DefaultRatio := -0.7

  /** `styleProperty || parallaxCss || 'backgroundPositionY'`: never empty. */
  function StyleSource(styleProperty: Option<string>, parallaxCss: Option<string>): (r: string)
    ensures r != ""
    ensures TruthyStr(styleProperty) ==> r == styleProperty.value
    ensures !TruthyStr(styleProperty) && TruthyStr(parallaxCss) ==> r == parallaxCss.value
    ensures !TruthyStr(styleProperty) && !TruthyStr(parallaxCss) ==> r == DefaultStyleProperty
  {
    if TruthyStr(styleProperty) then styleProperty.value
    else if TruthyStr(parallaxCss) then parallaxCss.value
    else DefaultStyleProperty
  }

  /** The axis that the character `c`, upper-cased, names: only x, X, y and Y name one. */
  function LetterAxis(c: char): Option<AxisLetter>
  {
    if c == 'X' || c == 'x' then Some(X)
    else if c == 'Y' || c == 'y' then Some(Y)
    else None
  }

  /** The axis read off the last character of a style property of the `backgroundPosition` family. */
  function InferredAxis(source: string): Option<AxisLetter>
  {
    if Includes(source, BackgroundPosition) && |source| > 0 then LetterAxis(source[|source| - 1])
    else None
  }

  /**
   * The first two parts of `property.split(':')`: the key, and the special value
   * (`None` when the property holds no `:`).
   */
  function SplitStyle(property: string): (r: (string, Option<string>))
    ensures LeadingSegment(property, ':', r.0)
    ensures r.1.Some? <==> |r.0| < |property|
    ensures r.1.Some? ==> LeadingSegment(property[|r.0| + 1..], ':', r.1.value)
  {
    var parts := Split(property, ':');
    SplitHead(property, ':');
    if |parts| > 1 then
      SplitHead(property[|parts[0]| + 1..], ':');
      assert parts[1] == parts[1..][0];
      (parts[0], Some(parts[1]))
    else
      (parts[0], None)
  }

  /** A property without `:` splits into itself alone. */
  lemma SplitStyleFree(property: string)
    requires ':' !in property
    ensures SplitStyle(property) == (property, None)
  {
    var key := SplitStyle(property).0;
    assert key == property[..|key|];
    assert key == property;
    assert SplitStyle(property).1.None?;
  }

  /** The separator-free text at the front of `s` is empty exactly when `s` is empty or starts with the separator. */
  lemma LeadingSegmentEmpty(s: string, sep: char, seg: string)
    requires LeadingSegment(s, sep, seg)
    ensures seg == "" <==> s == "" || s[0] == sep
  {
    assert seg != "" ==> seg[0] == s[0];
  }

  /** The derived style fields: `styleProperty`, `cssKey`, `cssValue` and `isSpecialVal`. */
  datatype StyleResolution = StyleResolution(
    styleProperty: string, cssKey: string, cssValue: string, isSpecialVal: bool)

  /**
   * The style property after it has been resolved to `source`: a member of the
   * `backgroundPosition` family collapses to `backgroundPosition` and is never
   * special; any other property is split on `:` into the key (the text before
   * the first `:`) and the special function name (the text up to the next `:`),
   * which counts only when it is not empty and otherwise falls back to the key.
   */
  function ResolveStyle(source: string): (r: StyleResolution)
    ensures Includes(source, BackgroundPosition) ==>
              r == StyleResolution(BackgroundPosition, BackgroundPosition, BackgroundPosition, false)
    ensures !Includes(source, BackgroundPosition) ==>
              && r.styleProperty == source
              && LeadingSegment(source, ':', r.cssKey)
              && (r.isSpecialVal <==> |r.cssKey| + 1 < |source| && source[|r.cssKey| + 1] != ':')
              && (r.isSpecialVal ==> r.cssValue != "" && LeadingSegment(source[|r.cssKey| + 1..], ':', r.cssValue))
              && (!r.isSpecialVal ==> r.cssValue == r.cssKey)
  {
    if Includes(source, BackgroundPosition) then
      assert ':' !in BackgroundPosition;
      SplitStyleFree(BackgroundPosition);
      StyleResolution(BackgroundPosition, BackgroundPosition, BackgroundPosition, false)
    else
      var (key, value) := SplitStyle(source);
      if value.Some? then
        var rest := source[|key| + 1..];
        LeadingSegmentEmpty(rest, ':', value.value);
        assert rest != "" ==> rest[0] == source[|key| + 1];
        var special := value.value != "";
        StyleResolution(source, key, if special then value.value else key, special)
      else
        StyleResolution(source, key, key, false)
  }

  /** ResolveStyle as the steps of prepareConfig take it: collapse the family, split, fall back to the key. */
  lemma ResolveStyleSteps(source: string)
    ensures var property := if Includes(source, BackgroundPosition) then BackgroundPosition else source;
            var split := SplitStyle(property);
            var special := split.1.Some? && split.1.value != "";
            ResolveStyle(source) == StyleResolution(property, split.0, if special then split.1.value else split.0, special)
  {
    if Includes(source, BackgroundPosition) {
      assert ':' !in BackgroundPosition;
      SplitStyleFree(BackgroundPosition);
    }
  }

  /** The local `axis` once the style step has run: the letter read off the style property, if any. */
  function LocalAxis(inferred: Option<AxisLetter>, axis: Option<AxisLetter>): Option<AxisLetter>
  {
    if inferred.Some? then inferred else axis
  }

  /** `axis || parallaxAxis || 'Y'`. */
  function AxisOrDefault(axis: Option<AxisLetter>, parallaxAxis: Option<AxisLetter>): AxisLetter
  {
    if axis.Some? then axis.value
    else if parallaxAxis.Some? then parallaxAxis.value
    else Y
  }

  /**
   * The resolved axis, `inferred` being the letter read off the style property:
   * an inferred letter wins over both inputs, then `axis`, then `parallaxAxis`,
   * then `'Y'`.
   */
  function ResolveAxis(inferred: Option<AxisLetter>, axis: Option<AxisLetter>, parallaxAxis: Option<AxisLetter>): (r: AxisLetter)
    ensures inferred.Some? ==> r == inferred.value
    ensures inferred.None? && axis.Some? ==> r == axis.value
    ensures inferred.None? && axis.None? && parallaxAxis.Some? ==> r == parallaxAxis.value
    ensures inferred.None? && axis.None? && parallaxAxis.None? ==> r == Y
  {
    AxisOrDefault(LocalAxis(inferred, axis), parallaxAxis)
  }

  /** `+(ratio || parallaxRatio) || -.7`: never 0. */
  function ResolveRatio(ratio: Option<real>, parallaxRatio: Option<real>): (r: real)
    ensures r != 0.0
    ensures TruthyNum(ratio) ==> r == ratio.value
    ensures !TruthyNum(ratio) && TruthyNum(parallaxRatio) ==> r == parallaxRatio.value
    ensures !TruthyNum(ratio) && !TruthyNum(parallaxRatio) ==> r == DefaultRatio
  {
    var chosen := if TruthyNum(ratio) then ratio else parallaxRatio;
    if TruthyNum(chosen) then chosen.value else DefaultRatio
  }

  /** `+(initialValue || parallaxInitVal) || 0`. */
  function ResolveInitialValue(initialValue: Option<real>, parallaxInitVal: Option<real>): (r: real)
    ensures TruthyNum(initialValue) ==> r == initialValue.value
    ensures !TruthyNum(initialValue) && TruthyNum(parallaxInitVal) ==> r == parallaxInitVal.value
    ensures !TruthyNum(initialValue) && !TruthyNum(parallaxInitVal) ==> r == 0.0
  {
    var chosen := if TruthyNum(initialValue) then initialValue else parallaxInitVal;
    if TruthyNum(chosen) then chosen.value else 0.0
  }

  /**
   * `disabled || (parallaxIf !== undefined ? !parallaxIf : false) || false`:
   * disabled exactly when `disabled` is true or `parallaxIf` is defined and false.
   */
  function ResolveDisabled(disabled: Option<bool>, parallaxIf: Option<bool>): (r: bool)
    ensures r <==> disabled == Some(true) || parallaxIf == Some(false)
  {
    if disabled == Some(true) then true
    else if parallaxIf.Some? then !parallaxIf.value
    else false
  }

  /** The scroll source and the lookup warning, if any. */
  datatype SourceResolution = SourceResolution(source: ScrollSource, warnings: seq<Warning>)

  /**
   * The scroll source: an explicit `scrollElement` is kept; otherwise a
   * `scrollerSelector` is looked up, and only without one a `scrollerId`; a
   * failed lookup warns once; whatever is not found is the window.
   */
  function ResolveScrollSource(scrollElement: Option<ScrollSource>, scrollerSelector: Option<string>,
                               scrollerId: Option<string>, dom: Dom): (r: SourceResolution)
    ensures |r.warnings| <= 1
    ensures scrollElement.Some? ==> r == SourceResolution(scrollElement.value, [])
    ensures scrollElement.None? && TruthyStr(scrollerSelector) ==>
              r == match dom.querySelector(scrollerSelector.value)
                   case Some(e) => SourceResolution(ElementSource(e), [])
                   case None => SourceResolution(WindowSource, [SelectorNotFound(scrollerSelector.value)])
    ensures scrollElement.None? && !TruthyStr(scrollerSelector) && TruthyStr(scrollerId) ==>
              r == match dom.getElementById(scrollerId.value)
                   case Some(e) => SourceResolution(ElementSource(e), [])
                   case None => SourceResolution(WindowSource, [IdNotFound(scrollerId.value)])
    ensures scrollElement.None? && !TruthyStr(scrollerSelector) && !TruthyStr(scrollerId) ==>
              r == SourceResolution(WindowSource, [])
  {
    if scrollElement.Some? then SourceResolution(scrollElement.value, [])
    else if TruthyStr(scrollerSelector) then
      match dom.querySelector(scrollerSelector.value)
      case Some(e) => SourceResolution(ElementSource(e), [])
      case None => SourceResolution(WindowSource, [SelectorNotFound(scrollerSelector.value)])
    else if TruthyStr(scrollerId) then
      match dom.getElementById(scrollerId.value)
      case Some(e) => SourceResolution(ElementSource(e), [])
      case None => SourceResolution(WindowSource, [IdNotFound(scrollerId.value)])
    else SourceResolution(WindowSource, [])
  }

  /** The state after prepareConfig, and the warnings it logged. */
  datatype Preparation = Preparation(fields: Fields, warnings: seq<Warning>)

  /** `this.styleProperty = styleProperty || parallaxCss || 'backgroundPositionY'`, collapsed to `backgroundPosition` for that family. */
  function StyleStep(s: Fields): Fields
  {
    var source := StyleSource(s.styleProperty, s.parallaxCss);
    s.(styleProperty := Some(if Includes(source, BackgroundPosition) then BackgroundPosition else source))
  }

  /** `this.styleProperty.split(':')` into `cssKey` and `cssValue`, the key standing in for an empty value. */
  function SplitStep(s: Fields): Fields
    requires s.styleProperty.Some?
  {
    var split := SplitStyle(s.styleProperty.value);
    var special := split.1.Some? && split.1.value != "";
    s.(cssKey := split.0, cssValue := if special then split.1 else Some(split.0), isSpecialVal := special)
  }

  /** `this.ratio = +(ratio || parallaxRatio) || -.7` and `this.initialValue = +(initialValue || parallaxInitVal) || 0`. */
  function NumberStep(s: Fields): Fields
  {
    s.(ratio := Some(ResolveRatio(s.ratio, s.parallaxRatio)),
       initialValue := Some(ResolveInitialValue(s.initialValue, s.parallaxInitVal)))
  }

  /** `this.parallaxElement = parallaxElement || this.hostElement`. */
  function TargetStep(s: Fields, host: Element): Fields
  {
    s.(parallaxElement := Some(if s.parallaxElement.Some? then s.parallaxElement.value else host))
  }

  /** The scroll source lookup, with the warning it logs. */
  function ScrollStep(s: Fields, dom: Dom): Preparation
  {
    var r := ResolveScrollSource(s.scrollElement, s.scrollerSelector, s.scrollerId, dom);
    Preparation(s.(scrollElement := Some(r.source)), r.warnings)
  }

  /** `this.axis = axis || parallaxAxis || 'Y'` for the local `axis`, and the disabled flag. */
  function SwitchStep(s: Fields, localAxis: Option<AxisLetter>): Fields
  {
    s.(axis := Some(AxisOrDefault(localAxis, s.parallaxAxis)),
       disabled := Some(ResolveDisabled(s.disabled, s.parallaxIf)))
  }

  /**
   * The resolution steps of prepareConfig, in the order it runs them, applied
   * to the state after the copy. Every step reads only fields no earlier step
   * writes, except the split, which reads the style property the first step wrote.
   */
  function Resolve(s: Fields, host: Element, dom: Dom): Preparation
  {
    var localAxis := LocalAxis(InferredAxis(StyleSource(s.styleProperty, s.parallaxCss)), s.axis);
    var scroll := ScrollStep(TargetStep(NumberStep(SplitStep(StyleStep(s))), host), dom);
    Preparation(SwitchStep(scroll.fields, localAxis), scroll.warnings)
  }

  /**
   * What the resolution computes, field by field: the style fields from the
   * resolved style property, the ratio, initial value, target element, scroll
   * source, axis and disabled flag by their precedence rules, the lookup
   * warning; every other field as it was.
   */
  lemma ResolveFieldByField(s: Fields, host: Element, dom: Dom)
    ensures var source := StyleSource(s.styleProperty, s.parallaxCss);
            var style := ResolveStyle(source);
            var scroll := ResolveScrollSource(s.scrollElement, s.scrollerSelector, s.scrollerId, dom);
            && Resolve(s, host, dom).fields ==
                 s.(styleProperty := Some(style.styleProperty),
                    cssKey := style.cssKey,
                    cssValue := Some(style.cssValue),
                    isSpecialVal := style.isSpecialVal,
                    ratio := Some(ResolveRatio(s.ratio, s.parallaxRatio)),
                    initialValue := Some(ResolveInitialValue(s.initialValue, s.parallaxInitVal)),
                    parallaxElement := Some(if s.parallaxElement.Some? then s.parallaxElement.value else host),
                    scrollElement := Some(scroll.source),
                    axis := Some(ResolveAxis(InferredAxis(source), s.axis, s.parallaxAxis)),
                    disabled := Some(ResolveDisabled(s.disabled, s.parallaxIf)))
            && Resolve(s, host, dom).warnings == scroll.warnings
  {
    ResolveStyleSteps(StyleSource(s.styleProperty, s.parallaxCss));
  }

  /** `config || {}`. */
  function ConfigOrEmpty(config: Option<Config>): Config
  {
    if config.Some? then config.value else map[]
  }

  /**
   * prepareConfig on inputs `s` and configuration object `cfg`: the deprecation
   * check on the inputs as bound, then the copy, then the resolution.
   */
  function Prepare(s: Fields, cfg: Config, host: Element, dom: Dom): Preparation
    requires WellTypedConfig(cfg)
  {
    var resolved := Resolve(CopyConfig(s, cfg), host, dom);
    Preparation(resolved.fields, DeprecationWarnings(s, cfg) + resolved.warnings)
  }

  /**
   * Concatenation is associative. Called where a method's heap context is large:
   * the lemma's conclusion is far cheaper there than the same inline assertion.
   */
  lemma AppendAssoc<T>(a: seq<T>, b: seq<T>, c: seq<T>)
    ensures a + b + c == a + (b + c)
  {
  }

  /** The fields evaluateScroll reads without checking them are defined. */
  predicate Ready(s: Fields)
  {
    s.ratio.Some? && s.initialValue.Some? && s.scrollElement.Some? && s.parallaxElement.Some?
    && (s.isSpecialVal ==> s.cssValue.Some?)
  }
}
