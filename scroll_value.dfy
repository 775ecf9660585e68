/**
 * The evaluation half of the directive: the value computed for a scroll
 * offset, its clamp (the maximum checked first), the CSS text it is formatted
 * into, and the ordered effects of handling one scroll event.
 */
module ScrollValue {
  import opened Wrappers
  import opened JsStrings
  import opened ParallaxTypes
  import opened DirectiveState
  import opened Resolution

  /** The clamp of evaluateScroll: `maxValue` is tested first, `minValue` only when that test fails. */
  function Clamp(raw: real, maxValue: Option<real>, minValue: Option<real>): real
  {
    if maxValue.Some? && raw >= maxValue.value then maxValue.value
    else if minValue.Some? && raw <= minValue.value then minValue.value
    else raw
  }

  function Min(a: real, b: real): real { if a <= b then a else b }
  function Max(a: real, b: real): real { if a <= b then b else a }

  /** At or above a defined maximum the result is the maximum, whatever the minimum. */
  lemma ClampMaxFirst(raw: real, maxValue: real, minValue: Option<real>)
    requires raw >= maxValue
    ensures Clamp(raw, Some(maxValue), minValue) == maxValue
  {
  }

  /** The result is the raw value or one of the bounds that are defined. */
  lemma ClampIsOneOf(raw: real, maxValue: Option<real>, minValue: Option<real>)
    ensures var r := Clamp(raw, maxValue, minValue);
            r == raw || (maxValue.Some? && r == maxValue.value) || (minValue.Some? && r == minValue.value)
  {
  }

  /** A defined bound alone is respected. */
  lemma ClampOneSided(raw: real, bound: real)
    ensures Clamp(raw, Some(bound), None) <= bound
    ensures Clamp(raw, None, Some(bound)) >= bound
    ensures Clamp(raw, None, None) == raw
  {
  }

  /**
   * With ordered bounds the clamp agrees with the usual `max(min, min(max, raw))`,
   * so its result lies between them, and clamping twice changes nothing.
   */
  lemma ClampOrderedBounds(raw: real, minValue: real, maxValue: real)
    requires minValue <= maxValue
    ensures Clamp(raw, Some(maxValue), Some(minValue)) == Max(minValue, Min(maxValue, raw))
    ensures minValue <= Clamp(raw, Some(maxValue), Some(minValue)) <= maxValue
    ensures Clamp(Clamp(raw, Some(maxValue), Some(minValue)), Some(maxValue), Some(minValue))
            == Clamp(raw, Some(maxValue), Some(minValue))
  {
  }

  /** With ordered bounds the clamp is monotonic. */
  lemma ClampMonotonic(a: real, b: real, minValue: Option<real>, maxValue: Option<real>)
    requires minValue.Some? && maxValue.Some? ==> minValue.value <= maxValue.value
    requires a <= b
    ensures Clamp(a, maxValue, minValue) <= Clamp(b, maxValue, minValue)
  {
  }

  /**
   * With `minValue > maxValue` the max-first order shows: a value just under the
   * maximum becomes the minimum, which lies above the maximum; clamping that
   * again gives the maximum, and a larger raw value gives a smaller result.
   */
  lemma ClampInvertedBounds(minValue: real, maxValue: real)
    requires minValue > maxValue
    ensures Clamp(maxValue - 1.0, Some(maxValue), Some(minValue)) == minValue
    ensures Clamp(minValue, Some(maxValue), Some(minValue)) == maxValue
    ensures Clamp(maxValue, Some(maxValue), Some(minValue)) < Clamp(maxValue - 1.0, Some(maxValue), Some(minValue))
  {
  }

  /** `scrollElement.scrollY` for the window, `scrollTop` for an element. */
  function Offset(source: ScrollSource, dom: Dom): real
  {
    match source
    case WindowSource => dom.scrollY
    case ElementSource(e) => dom.scrollTop(e)
  }

  /** The clamped value of `offset * ratio + initialValue`. */
  function ScrollResult(s: Fields, dom: Dom): real
    requires Ready(s)
  {
    Clamp(Offset(s.scrollElement.value, dom) * s.ratio.value + s.initialValue.value, s.maxValue, s.minValue)
  }

  /** The CSS text for a number already converted to `number`. */
  function Format(s: Fields, number: string): string
    requires s.isSpecialVal ==> s.cssValue.Some?
  {
    if s.cssKey == BackgroundPosition then
      if s.axis == Some(X) then number + s.cssUnit + " 0" else "0 " + number + s.cssUnit
    else if s.isSpecialVal then s.cssValue.value + "(" + number + s.cssUnit + ")"
    else number + s.cssUnit
  }

  /** Every shape of the CSS text holds the number followed by the unit. */
  lemma FormatEmbedsNumber(s: Fields, number: string)
    requires s.isSpecialVal ==> s.cssValue.Some?
    ensures Includes(Format(s, number), number + s.cssUnit)
  {
    var v := number + s.cssUnit;
    if s.cssKey == BackgroundPosition {
      if s.axis == Some(X) {
        assert Format(s, number) == "" + v + " 0";
        IncludesInfix("", v, " 0");
      } else {
        assert Format(s, number) == "0 " + v + "";
        IncludesInfix("0 ", v, "");
      }
    } else if s.isSpecialVal {
      assert Format(s, number) == s.cssValue.value + "(" + v + ")";
      IncludesInfix(s.cssValue.value + "(", v, ")");
    } else {
      assert Format(s, number) == "" + v + "";
      IncludesInfix("", v, "");
    }
  }

  /** The legacy callback call, bound to `cb_context || hostElement` with `cb_args || []`. */
  function CallbackEffects(s: Fields, host: Element, e: ScrollEvent): seq<Effect>
  {
    if s.cb.Some? then
      [CallbackInvoked(s.cb.value,
                       if s.cbContext.Some? then s.cbContext.value else ElementContext(host),
                       e,
                       if s.cbArgs.Some? then s.cbArgs.value else [])]
    else []
  }

  /** The effects of evaluateScroll for event `e`, with `toStr` as JavaScript's number-to-string. */
  function ScrollEffects(s: Fields, host: Element, dom: Dom, e: ScrollEvent, toStr: real -> string): seq<Effect>
    requires Ready(s)
  {
    if s.disabled == Some(true) then []
    else
      CallbackEffects(s, host, e)
      + [StyleWritten(s.parallaxElement.value, s.cssKey, Format(s, toStr(ScrollResult(s, dom)))),
         UpdateEmitted(e)]
  }

  /**
   * The legacy callback of an enabled directive receives `cb_context` when one is
   * bound and otherwise the host, not `parallaxElement` when that names another
   * element; it gets the event and `cb_args`, or no arguments.
   */
  lemma CallbackReceiver(s: Fields, host: Element, dom: Dom, e: ScrollEvent, toStr: real -> string)
    requires Ready(s) && s.disabled != Some(true) && s.cb.Some?
    ensures var fx := ScrollEffects(s, host, dom, e, toStr);
            && fx[0].CallbackInvoked?
            && fx[0].callback == s.cb.value
            && (s.cbContext.Some? ==> fx[0].receiver == s.cbContext.value)
            && (s.cbContext.None? ==> fx[0].receiver == ElementContext(host))
            && fx[0].event == e
            && fx[0].args == (if s.cbArgs.Some? then s.cbArgs.value else [])
  {
  }

  /** A disabled directive does nothing on a scroll event. */
  lemma DisabledIsInert(s: Fields, host: Element, dom: Dom, e: ScrollEvent, toStr: real -> string)
    requires Ready(s) && s.disabled == Some(true)
    ensures ScrollEffects(s, host, dom, e, toStr) == []
  {
  }

  /**
   * An enabled directive calls the callback first (only when one is set), then
   * writes the formatted value to `parallaxElement.style[cssKey]`, then emits
   * `update` for the event, exactly once and last.
   */
  lemma EnabledEffectOrder(s: Fields, host: Element, dom: Dom, e: ScrollEvent, toStr: real -> string)
    requires Ready(s) && s.disabled != Some(true)
    ensures var fx := ScrollEffects(s, host, dom, e, toStr);
            && |fx| == (if s.cb.Some? then 3 else 2)
            && (s.cb.Some? <==> fx[0].CallbackInvoked?)
            && fx[|fx| - 2] == StyleWritten(s.parallaxElement.value, s.cssKey, Format(s, toStr(ScrollResult(s, dom))))
            && fx[|fx| - 1] == UpdateEmitted(e)
            && forall i :: 0 <= i < |fx| && fx[i].UpdateEmitted? ==> i == |fx| - 1
  {
  }
}
