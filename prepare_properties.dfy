/**
 * What prepareConfig guarantees as a whole: the state it leaves is ready for
 * evaluateScroll, keys that name no input are ignored, the scroll source does
 * not depend on the ID once a selector is given, and worked examples of the
 * defaults, the deprecation check and the style, axis and clamp rules.
 */
module PrepareProperties {
  import opened Wrappers
  import opened JsStrings
  import opened ParallaxTypes
  import opened DirectiveState
  import opened Resolution
  import opened ScrollValue

  /**
   * After prepareConfig every field evaluateScroll reads is defined, and the
   * style property, axis and disabled flag are set.
   */
  lemma PrepareIsReady(s: Fields, cfg: Config, host: Element, dom: Dom)
    requires WellTypedConfig(cfg)
    ensures var r := Prepare(s, cfg, host, dom).fields;
            Ready(r) && r.styleProperty.Some? && r.axis.Some? && r.disabled.Some?
  {
    ResolveFieldByField(CopyConfig(s, cfg), host, dom);
  }

  /**
   * When the style property in force belongs to the `backgroundPosition` family
   * and ends in x, X, y or Y, that letter is the axis, whatever `axis` and
   * `parallaxAxis` say; the style property becomes `backgroundPosition` itself.
   */
  lemma InferredAxisWins(s: Fields, cfg: Config, host: Element, dom: Dom)
    requires WellTypedConfig(cfg)
    requires var c := CopyConfig(s, cfg);
             var source := StyleSource(c.styleProperty, c.parallaxCss);
             Includes(source, BackgroundPosition) && LetterAxis(source[|source| - 1]).Some?
    ensures var c := CopyConfig(s, cfg);
            var source := StyleSource(c.styleProperty, c.parallaxCss);
            && Prepare(s, cfg, host, dom).fields.axis == LetterAxis(source[|source| - 1])
            && Prepare(s, cfg, host, dom).fields.styleProperty == Some(BackgroundPosition)
            && Prepare(s, cfg, host, dom).fields.cssKey == BackgroundPosition
            && !Prepare(s, cfg, host, dom).fields.isSpecialVal
  {
    ResolveFieldByField(CopyConfig(s, cfg), host, dom);
  }

  /**
   * With the style property at its initialiser `backgroundPositionY` and no
   * `parallaxCss`, the axis is Y whatever `axis` and `parallaxAxis` hold: the
   * inferred letter leaves those inputs no effect.
   */
  lemma AxisInputsIgnoredByDefault(axis: Option<AxisLetter>, parallaxAxis: Option<AxisLetter>, host: Element, dom: Dom)
    ensures WellTypedConfig(map[])
    ensures Prepare(InputDefaults.(axis := axis, parallaxAxis := parallaxAxis), map[], host, dom).fields.axis == Some(Y)
  {
    var s := InputDefaults.(axis := axis, parallaxAxis := parallaxAxis);
    CopyEmptyConfig(s);
    assert StyleSource(s.styleProperty, s.parallaxCss) == "backgroundPositionY";
    assert BackgroundPosition <= "backgroundPositionY";
    InferredAxisWins(s, map[], host, dom);
  }

  /**
   * Without an explicit scroll element, a truthy selector decides the scroll
   * source and the lookup warning: the ID is not consulted.
   */
  lemma SelectorShadowsId(s: Fields, host: Element, dom: Dom, otherId: Option<string>)
    requires s.scrollElement.None? && TruthyStr(s.scrollerSelector)
    ensures Resolve(s.(scrollerId := otherId), host, dom).fields.scrollElement
            == Resolve(s, host, dom).fields.scrollElement
    ensures Resolve(s.(scrollerId := otherId), host, dom).warnings == Resolve(s, host, dom).warnings
  {
    ResolveFieldByField(s, host, dom);
    ResolveFieldByField(s.(scrollerId := otherId), host, dom);
  }

  /** A key that names no input changes neither the deprecation check nor the copy. */
  lemma DeprecationIgnoresUnlistedKeys(s: Fields, cfg: Config, key: string, v: Value)
    requires key !in Names(WhitelistedFields)
    ensures DeprecationWarnings(s, cfg[key := v]) == DeprecationWarnings(s, cfg)
  {
    assert FieldNamed(key).None?;
    UsedAmongIgnoresUnlistedKeys(s, cfg, key, v, DeprecatedFields);
  }

  /** Filtering a list of keys by use does not look at a key that names no input. */
  lemma {:induction false} UsedAmongIgnoresUnlistedKeys(s: Fields, cfg: Config, key: string, v: Value, keys: seq<Key>)
    requires forall k :: Name(k) != key
    ensures UsedAmong(s, cfg[key := v], keys) == UsedAmong(s, cfg, keys)
    decreases |keys|
  {
    if keys != [] {
      assert InUse(s, cfg[key := v], keys[0]) == InUse(s, cfg, keys[0]);
      UsedAmongIgnoresUnlistedKeys(s, cfg, key, v, keys[1..]);
    }
  }

  /** prepareConfig ignores a `config` key that names no input. */
  lemma PrepareIgnoresUnlistedKeys(s: Fields, cfg: Config, host: Element, dom: Dom, key: string, v: Value)
    requires WellTypedConfig(cfg)
    requires key !in Names(WhitelistedFields)
    ensures WellTypedConfig(cfg[key := v])
    ensures Prepare(s, cfg[key := v], host, dom) == Prepare(s, cfg, host, dom)
  {
    CopyIgnoresUnlistedKeys(s, cfg, key, v);
    DeprecationIgnoresUnlistedKeys(s, cfg, key, v);
  }

  /** A `config` object with the one key `Name(k)` is well typed when its value is. */
  lemma SingleKeyConfig(k: Key, v: Value)
    requires WellTyped(k, v)
    ensures WellTypedConfig(map[Name(k) := v])
  {
    forall j | Name(j) in map[Name(k) := v] ensures WellTyped(j, map[Name(k) := v][Name(j)]) {
      NameInjective(j, k);
    }
  }

  /** Copying a one-key `config` object is binding that one input. */
  lemma CopySingleKey(s: Fields, k: Key, v: Value)
    requires WellTyped(k, v)
    ensures WellTypedConfig(map[Name(k) := v])
    ensures CopyConfig(s, map[Name(k) := v]) == SetField(s, k, v)
  {
    SingleKeyConfig(k, v);
    var cfg := map[Name(k) := v];
    forall j ensures FieldValue(CopyConfig(s, cfg), j) == FieldValue(SetField(s, k, v), j) {
      FieldValueAfterSetField(s, k, v, j);
      if Name(j) in cfg { NameInjective(j, k); }
    }
    Extensionality(CopyConfig(s, cfg), SetField(s, k, v));
  }

  /**
   * A directive left at its initialisers, with no `config`: the style property
   * `backgroundPositionY` collapses to `backgroundPosition` on the Y axis, the
   * target is the host, the window is the scroll source, and nothing is logged.
   */
  lemma DefaultsExample(host: Element, dom: Dom)
    ensures WellTypedConfig(map[])
    ensures Prepare(InputDefaults, map[], host, dom)
            == Preparation(InputDefaults.(styleProperty := Some(BackgroundPosition),
                                          cssValue := Some(BackgroundPosition),
                                          parallaxElement := Some(host),
                                          scrollElement := Some(WindowSource)), [])
  {
    Extensionality(CopyConfig(InputDefaults, map[]), InputDefaults);
    DefaultsDeprecationFree();
    DefaultsResolve(host, dom);
  }

  /** No deprecated input has an initialiser. */
  lemma DefaultsDeprecationFree()
    ensures DeprecationWarnings(InputDefaults, map[]) == []
  {
    forall k | k in DeprecatedFields ensures !InUse(InputDefaults, map[], k) {
    }
  }

  /** What the resolution steps make of the initialisers. */
  lemma DefaultsResolve(host: Element, dom: Dom)
    ensures Resolve(InputDefaults, host, dom)
            == Preparation(InputDefaults.(styleProperty := Some(BackgroundPosition),
                                          cssValue := Some(BackgroundPosition),
                                          parallaxElement := Some(host),
                                          scrollElement := Some(WindowSource)), [])
  {
    assert BackgroundPosition <= "backgroundPositionY";
    ResolveFieldByField(InputDefaults, host, dom);
  }

  /**
   * The deprecation check looks at `config` for truthiness only, before the copy:
   * `parallaxIf: false` in `config` is not reported, yet once copied it disables
   * the directive; `parallaxIf: true` is reported and leaves it enabled.
   */
  lemma ParallaxIfConfigExample(b: bool, host: Element, dom: Dom)
    ensures WellTypedConfig(map["parallaxIf" := Bool(b)])
    ensures Prepare(InputDefaults, map["parallaxIf" := Bool(b)], host, dom).warnings
            == if b then [DeprecatedFieldsUsed(["parallaxIf"])] else []
    ensures Prepare(InputDefaults, map["parallaxIf" := Bool(b)], host, dom).fields.disabled == Some(!b)
  {
    CopySingleKey(InputDefaults, ParallaxIf, Bool(b));
    assert SetField(InputDefaults, ParallaxIf, Bool(b)) == InputDefaults.(parallaxIf := Some(b));
    DefaultsResolveWarningFree(InputDefaults.(parallaxIf := Some(b)), host, dom);
    ParallaxIfDeprecation(b);
    assert Names([ParallaxIf]) == ["parallaxIf"];
  }

  /** Only `parallaxIf` can be in use, and only when its `config` value is truthy. */
  lemma ParallaxIfDeprecation(b: bool)
    ensures UsedDeprecatedFields(InputDefaults, map["parallaxIf" := Bool(b)]) == if b then [ParallaxIf] else []
  {
    var cfg := map["parallaxIf" := Bool(b)];
    forall i | 0 <= i < |DeprecatedFields|
      ensures InUse(InputDefaults, cfg, DeprecatedFields[i]) <==> b && DeprecatedFields[i] == ParallaxIf
    {
      if Name(DeprecatedFields[i]) == "parallaxIf" { NameInjective(DeprecatedFields[i], ParallaxIf); }
    }
    UsedAmongAtMostOne(InputDefaults, cfg, DeprecatedFields, ParallaxIf, b);
  }

  /**
   * Among distinct keys of which at most `k0` is in use, and only when `inUse`
   * holds, the keys in use are `k0` alone or none.
   */
  lemma {:induction false} UsedAmongAtMostOne(s: Fields, cfg: Config, keys: seq<Key>, k0: Key, inUse: bool)
    requires forall i, j :: 0 <= i < j < |keys| ==> keys[i] != keys[j]
    requires forall i :: 0 <= i < |keys| ==> (InUse(s, cfg, keys[i]) <==> inUse && keys[i] == k0)
    ensures UsedAmong(s, cfg, keys) == if inUse && k0 in keys then [k0] else []
    decreases |keys|
  {
    if keys != [] {
      assert forall i :: 0 <= i < |keys[1..]| ==> keys[1..][i] == keys[i + 1];
      UsedAmongAtMostOne(s, cfg, keys[1..], k0, inUse);
      assert k0 in keys <==> k0 == keys[0] || k0 in keys[1..];
      if keys[0] == k0 {
        assert k0 !in keys[1..];
      }
    }
  }

  /** With no scroll element, selector or ID, resolution logs nothing. */
  lemma DefaultsResolveWarningFree(s: Fields, host: Element, dom: Dom)
    requires s.scrollElement.None? && s.scrollerSelector.None? && s.scrollerId.None?
    ensures Resolve(s, host, dom).warnings == []
    ensures Resolve(s, host, dom).fields.disabled
            == Some(s.disabled == Some(true) || s.parallaxIf == Some(false))
  {
    ResolveFieldByField(s, host, dom);
  }

  /** `opacity:scale` is the special value `scale` of `opacity`. */
  lemma SpecialValueExample()
    ensures ResolveStyle("opacity:scale") == StyleResolution("opacity:scale", "opacity", "scale", true)
  {
    var r := ResolveStyle("opacity:scale");
    assert !Includes("opacity:scale", BackgroundPosition) by {
      IncludesIsOccurrence("opacity:scale", BackgroundPosition);
    }
    OpacityScaleSegments();
    LeadingSegmentUnique("opacity:scale", ':', r.cssKey, "opacity");
    LeadingSegmentUnique("scale", ':', r.cssValue, "scale");
  }

  /** A proof step of SpecialValueExample: the two `:`-segments of `opacity:scale`. */
  lemma OpacityScaleSegments()
    ensures LeadingSegment("opacity:scale", ':', "opacity")
    ensures "opacity:scale"[8..] == "scale"
    ensures LeadingSegment("scale", ':', "scale")
  {
    assert "scale" == ['s', 'c', 'a', 'l', 'e'];
  }

  /**
   * The CSS text evaluateScroll writes after prepareConfig, by the style property
   * in force: `v unit 0` or `0 v unit` for the `backgroundPosition` family, by
   * axis; `name(v unit)` for a special value `name`; `v unit` otherwise.
   */
  lemma PreparedFormat(s: Fields, cfg: Config, host: Element, dom: Dom, number: string)
    requires WellTypedConfig(cfg)
    ensures var c := CopyConfig(s, cfg);
            var source := StyleSource(c.styleProperty, c.parallaxCss);
            var style := ResolveStyle(source);
            var r := Prepare(s, cfg, host, dom).fields;
            var v := number + c.cssUnit;
            && (Includes(source, BackgroundPosition) ==>
                  Format(r, number) == if r.axis == Some(X) then v + " 0" else "0 " + v)
            && (!Includes(source, BackgroundPosition) && style.isSpecialVal ==>
                  Format(r, number) == style.cssValue + "(" + v + ")")
            && (!Includes(source, BackgroundPosition) && !style.isSpecialVal ==>
                  Format(r, number) == v)
  {
    ResolvedFormat(CopyConfig(s, cfg), host, dom, number);
  }

  /** PreparedFormat for the resolution steps alone, on the state after the copy. */
  lemma ResolvedFormat(c: Fields, host: Element, dom: Dom, number: string)
    ensures var source := StyleSource(c.styleProperty, c.parallaxCss);
            var style := ResolveStyle(source);
            var r := Resolve(c, host, dom).fields;
            var v := number + c.cssUnit;
            && (Includes(source, BackgroundPosition) ==>
                  Format(r, number) == if r.axis == Some(X) then v + " 0" else "0 " + v)
            && (!Includes(source, BackgroundPosition) && style.isSpecialVal ==>
                  Format(r, number) == style.cssValue + "(" + v + ")")
            && (!Includes(source, BackgroundPosition) && !style.isSpecialVal ==>
                  Format(r, number) == v)
  {
    var source := StyleSource(c.styleProperty, c.parallaxCss);
    var r := Resolve(c, host, dom).fields;
    ResolveFieldByField(c, host, dom);
    assert r.cssUnit == c.cssUnit;
    FormatOfStyle(r, source, number);
  }

  /** Format of a state whose style fields are those ResolveStyle gives for `source`. */
  lemma FormatOfStyle(r: Fields, source: string, number: string)
    requires var style := ResolveStyle(source);
             r.cssKey == style.cssKey && r.cssValue == Some(style.cssValue) && r.isSpecialVal == style.isSpecialVal
    ensures var style := ResolveStyle(source);
            var v := number + r.cssUnit;
            && (Includes(source, BackgroundPosition) ==>
                  Format(r, number) == if r.axis == Some(X) then v + " 0" else "0 " + v)
            && (!Includes(source, BackgroundPosition) && style.isSpecialVal ==>
                  Format(r, number) == style.cssValue + "(" + v + ")")
            && (!Includes(source, BackgroundPosition) && !style.isSpecialVal ==>
                  Format(r, number) == v)
  {
    if !Includes(source, BackgroundPosition) {
      // The key is a prefix of the source, so it cannot be `backgroundPosition` itself.
      assert r.cssKey <= source;
      assert r.cssKey != BackgroundPosition;
    }
  }

  /** With no `config` object the copy changes nothing. */
  lemma CopyEmptyConfig(s: Fields)
    ensures WellTypedConfig(map[])
    ensures CopyConfig(s, map[]) == s
  {
    Extensionality(CopyConfig(s, map[]), s);
  }

  /** The inputs of the `opacity:scale` example: ratio 1 and no unit, the rest at the initialisers. */
  const OpacityScaleInputs := InputDefaults.(styleProperty := Some("opacity:scale"), cssUnit := "", ratio := Some(1.0))

  /**
   * `styleProperty: 'opacity:scale'` with ratio 1 and no unit, on the window
   * scrolled to 10: the scroll event writes `scale(10)` to `opacity` of the host,
   * then emits `update`.
   */
  lemma OpacityScaleScrollExample(host: Element, dom: Dom, e: ScrollEvent, toStr: real -> string)
    requires dom.scrollY == 10.0 && toStr(10.0) == "10"
    ensures WellTypedConfig(map[])
    ensures var r := Prepare(OpacityScaleInputs, map[], host, dom).fields;
            && Ready(r)
            && ScrollEffects(r, host, dom, e, toStr) == [StyleWritten(host, "opacity", "scale(10)"), UpdateEmitted(e)]
  {
    CopyEmptyConfig(OpacityScaleInputs);
    OpacityScaleResolved(host, dom);
    OpacityScaleScroll(Prepare(OpacityScaleInputs, map[], host, dom).fields, host, dom, e, toStr);
  }

  /** What the resolution steps make of `opacity:scale` with ratio 1 and no unit. */
  lemma OpacityScaleResolved(host: Element, dom: Dom)
    ensures Resolve(OpacityScaleInputs, host, dom).fields
            == OpacityScaleInputs.(cssKey := "opacity", cssValue := Some("scale"), isSpecialVal := true,
                                   initialValue := Some(0.0), parallaxElement := Some(host),
                                   scrollElement := Some(WindowSource))
  {
    assert StyleSource(OpacityScaleInputs.styleProperty, OpacityScaleInputs.parallaxCss) == "opacity:scale";
    SpecialValueExample();
    ResolveFieldByField(OpacityScaleInputs, host, dom);
  }

  /** The scroll event of the `opacity:scale` example, once its fields are resolved. */
  lemma OpacityScaleScroll(r: Fields, host: Element, dom: Dom, e: ScrollEvent, toStr: real -> string)
    requires dom.scrollY == 10.0 && toStr(10.0) == "10"
    requires r == OpacityScaleInputs.(cssKey := "opacity", cssValue := Some("scale"), isSpecialVal := true,
                                      initialValue := Some(0.0), parallaxElement := Some(host),
                                      scrollElement := Some(WindowSource))
    ensures Ready(r)
    ensures ScrollEffects(r, host, dom, e, toStr) == [StyleWritten(host, "opacity", "scale(10)"), UpdateEmitted(e)]
  {
    assert ScrollResult(r, dom) == 10.0;
    assert r.cssKey != BackgroundPosition;
    assert "scale" + "(" + "10" + "" + ")" == "scale(10)";
  }

  /** The inputs of the `backgroundPositionX` example: ratio 1, the rest (axis Y, unit `px`) at the initialisers. */
  const BackgroundPositionXInputs := InputDefaults.(styleProperty := Some("backgroundPositionX"), ratio := Some(1.0))

  /**
   * `styleProperty: 'backgroundPositionX'` with ratio 1, on the window scrolled
   * to 100: the trailing `X` overrides the initialiser's axis Y, and the scroll
   * event writes `100px 0` to `backgroundPosition` of the host, then emits `update`.
   */
  lemma BackgroundPositionXExample(host: Element, dom: Dom, e: ScrollEvent, toStr: real -> string)
    requires dom.scrollY == 100.0 && toStr(100.0) == "100"
    ensures WellTypedConfig(map[])
    ensures var r := Prepare(BackgroundPositionXInputs, map[], host, dom).fields;
            && Ready(r)
            && r.axis == Some(X)
            && ScrollEffects(r, host, dom, e, toStr)
               == [StyleWritten(host, BackgroundPosition, "100px 0"), UpdateEmitted(e)]
  {
    CopyEmptyConfig(BackgroundPositionXInputs);
    BackgroundPositionXResolved(host, dom);
    BackgroundPositionXScroll(Prepare(BackgroundPositionXInputs, map[], host, dom).fields, host, dom, e, toStr);
  }

  /** What the resolution steps make of `backgroundPositionX` with ratio 1. */
  lemma BackgroundPositionXResolved(host: Element, dom: Dom)
    ensures Resolve(BackgroundPositionXInputs, host, dom).fields
            == BackgroundPositionXInputs.(styleProperty := Some(BackgroundPosition), cssKey := BackgroundPosition,
                                          cssValue := Some(BackgroundPosition), axis := Some(X),
                                          parallaxElement := Some(host), scrollElement := Some(WindowSource))
  {
    assert StyleSource(BackgroundPositionXInputs.styleProperty, BackgroundPositionXInputs.parallaxCss)
           == "backgroundPositionX";
    assert BackgroundPosition <= "backgroundPositionX";
    ResolveFieldByField(BackgroundPositionXInputs, host, dom);
  }

  /** The scroll event of the `backgroundPositionX` example, once its fields are resolved. */
  lemma BackgroundPositionXScroll(r: Fields, host: Element, dom: Dom, e: ScrollEvent, toStr: real -> string)
    requires dom.scrollY == 100.0 && toStr(100.0) == "100"
    requires r == BackgroundPositionXInputs.(styleProperty := Some(BackgroundPosition), cssKey := BackgroundPosition,
                                             cssValue := Some(BackgroundPosition), axis := Some(X),
                                             parallaxElement := Some(host), scrollElement := Some(WindowSource))
    ensures Ready(r)
    ensures ScrollEffects(r, host, dom, e, toStr) == [StyleWritten(host, BackgroundPosition, "100px 0"), UpdateEmitted(e)]
  {
    assert ScrollResult(r, dom) == 100.0;
    assert Format(r, "100") == "100" + "px" + " 0";
    assert "100" + "px" + " 0" == "100px 0";
  }

  /** A selector that matches nothing leaves the window as the scroll source and warns once. */
  lemma MissingSelectorExample(s: Fields, host: Element, dom: Dom)
    requires s.scrollElement.None? && s.scrollerSelector == Some("#missing")
    requires dom.querySelector("#missing").None?
    ensures Resolve(s, host, dom).fields.scrollElement == Some(WindowSource)
    ensures Resolve(s, host, dom).warnings == [SelectorNotFound("#missing")]
  {
    ResolveFieldByField(s, host, dom);
  }

  /** With the maximum below the minimum the maximum wins: 30 clamped to max 10, min 50 is 10. */
  lemma InvertedClampExample()
    ensures Clamp(30.0, Some(10.0), Some(50.0)) == 10.0
  {
  }
}
