/**
 * The directive as an object: its inputs and private fields, the log of
 * `console.warn` calls, and the trace of what scroll handling did. Angular's
 * lifecycle is not modelled; Bind stands for an input binding, PrepareConfig for
 * `prepareConfig` and EvaluateScroll for the scroll listener `evaluateScroll`.
 */
module Directive {
  import opened Wrappers
  import opened JsStrings
  import opened ParallaxTypes
  import opened DirectiveState
  import opened Resolution
  import opened ScrollValue

  class ParallaxDirective {
    /** The `config` input; `None` when it is falsy. */
    var config: Option<Config>
    var cssKey: string
    var parallaxCss: Option<string>
    var styleProperty: Option<string>
    var parallaxAxis: Option<AxisLetter>
    var axis: Option<AxisLetter>
    var parallaxRatio: Option<real>
    var ratio: Option<real>
    var parallaxInitVal: Option<real>
    var initialValue: Option<real>
    var parallaxIf: Option<bool>
    var disabled: Option<bool>
    var scrollerId: Option<string>
    var scrollerSelector: Option<string>
    var scrollElement: Option<ScrollSource>
    var maxValue: Option<real>
    var minValue: Option<real>
    var cssUnit: string
    var cb: Option<Callback>
    var cbContext: Option<Context>
    var cbArgs: Option<seq<Arg>>
    var parallaxElement: Option<Element>
    /** The function name of a special style value, or the key itself. */
    var cssValue: Option<string>
    var isSpecialVal: bool
    /** The element the directive is placed on. */
    const hostElement: Element
    /** The `console.warn` calls made so far. */
    var warnings: seq<Warning>
    /** The callbacks, style writes and `update` emits made so far. */
    var effects: seq<Effect>

    /** The fields of the directive as one value. */
    function Snapshot(): Fields
      reads this`cssKey,
        this`parallaxCss,
        this`styleProperty,
        this`parallaxAxis,
        this`axis,
        this`parallaxRatio,
        this`ratio,
        this`parallaxInitVal,
        this`initialValue,
        this`parallaxIf,
        this`disabled,
        this`scrollerId,
        this`scrollerSelector,
        this`scrollElement,
        this`maxValue,
        this`minValue,
        this`cssUnit,
        this`cb,
        this`cbContext,
        this`cbArgs,
        this`parallaxElement,
        this`cssValue,
        this`isSpecialVal
    {
      Fields(
        cssKey,
        parallaxCss,
        styleProperty,
        parallaxAxis,
        axis,
        parallaxRatio,
        ratio,
        parallaxInitVal,
        initialValue,
        parallaxIf,
        disabled,
        scrollerId,
        scrollerSelector,
        scrollElement,
        maxValue,
        minValue,
        cssUnit,
        cb,
        cbContext,
        cbArgs,
        parallaxElement,
        cssValue,
        isSpecialVal)
    }

    /** A directive on `host`, every field at its initialiser. */
    constructor (host: Element)
      ensures Snapshot() == InputDefaults
      ensures hostElement == host && config == None
      ensures warnings == [] && effects == []
    {
      hostElement := host;
      config := None;
      cssKey := InputDefaults.cssKey;
      parallaxCss := InputDefaults.parallaxCss;
      styleProperty := InputDefaults.styleProperty;
      parallaxAxis := InputDefaults.parallaxAxis;
      axis := InputDefaults.axis;
      parallaxRatio := InputDefaults.parallaxRatio;
      ratio := InputDefaults.ratio;
      parallaxInitVal := InputDefaults.parallaxInitVal;
      initialValue := InputDefaults.initialValue;
      parallaxIf := InputDefaults.parallaxIf;
      disabled := InputDefaults.disabled;
      scrollerId := InputDefaults.scrollerId;
      scrollerSelector := InputDefaults.scrollerSelector;
      scrollElement := InputDefaults.scrollElement;
      maxValue := InputDefaults.maxValue;
      minValue := InputDefaults.minValue;
      cssUnit := InputDefaults.cssUnit;
      cb := InputDefaults.cb;
      cbContext := InputDefaults.cbContext;
      cbArgs := InputDefaults.cbArgs;
      parallaxElement := InputDefaults.parallaxElement;
      cssValue := None;
      isSpecialVal := false;
      warnings := [];
      effects := [];
    }

    /**
     * `this[k] = v`: Angular binding an input, or the copy loop of
     * prepareConfig. The input named by `k` takes `v` and nothing else changes.
     * The source writes any input by one computed assignment; here the keys are
     * dispatched by group to the Bind methods below only to keep each proof of
     * the whole new state small; together they are that one assignment.
     */
    method Bind(k: Key, v: Value)
      requires WellTyped(k, v)
      modifies this
      ensures Snapshot() == SetField(old(Snapshot()), k, v)
      ensures config == old(config) && warnings == old(warnings) && effects == old(effects)
    {
      match k
      case ParallaxCss | StyleProperty | CssKey => BindStyle(k, v);
      case ParallaxAxis | Axis => BindAxis(k, v);
      case ParallaxRatio | Ratio => BindRatio(k, v);
      case ParallaxInitVal | InitialValue => BindInitialValue(k, v);
      case ParallaxIf | Disabled => BindSwitch(k, v);
      case ScrollerId | ScrollerSelector | ScrollElement => BindScroller(k, v);
      case Cb | CbContext | CbArgs => BindCallback(k, v);
      case MaxValue | MinValue => BindBounds(k, v);
      case CssUnit | ParallaxElement => BindTarget(k, v);
    }

    /** Bind for the style inputs. */
    method BindStyle(k: Key, v: Value)
      requires k.ParallaxCss? || k.StyleProperty? || k.CssKey?
      requires WellTyped(k, v)
      modifies this
      ensures Snapshot() == SetField(old(Snapshot()), k, v)
      ensures config == old(config) && warnings == old(warnings) && effects == old(effects)
    {
      match k
      case ParallaxCss => parallaxCss := OptStr(v);
      case StyleProperty => styleProperty := OptStr(v);
      case CssKey => cssKey := v.s;
    }

    /** Bind for the axis inputs. */
    method BindAxis(k: Key, v: Value)
      requires k.ParallaxAxis? || k.Axis?
      requires WellTyped(k, v)
      modifies this
      ensures Snapshot() == SetField(old(Snapshot()), k, v)
      ensures config == old(config) && warnings == old(warnings) && effects == old(effects)
    {
      match k
      case ParallaxAxis => parallaxAxis := OptLetter(v);
      case Axis => axis := OptLetter(v);
    }

    /** Bind for the ratio inputs. */
    method BindRatio(k: Key, v: Value)
      requires k.ParallaxRatio? || k.Ratio?
      requires WellTyped(k, v)
      modifies this
      ensures Snapshot() == SetField(old(Snapshot()), k, v)
      ensures config == old(config) && warnings == old(warnings) && effects == old(effects)
    {
      match k
      case ParallaxRatio => parallaxRatio := OptNum(v);
      case Ratio => ratio := OptNum(v);
    }

    /** Bind for the initial value inputs. */
    method BindInitialValue(k: Key, v: Value)
      requires k.ParallaxInitVal? || k.InitialValue?
      requires WellTyped(k, v)
      modifies this
      ensures Snapshot() == SetField(old(Snapshot()), k, v)
      ensures config == old(config) && warnings == old(warnings) && effects == old(effects)
    {
      match k
      case ParallaxInitVal => parallaxInitVal := OptNum(v);
      case InitialValue => initialValue := OptNum(v);
    }

    /** Bind for the on/off inputs. */
    method BindSwitch(k: Key, v: Value)
      requires k.ParallaxIf? || k.Disabled?
      requires WellTyped(k, v)
      modifies this
      ensures Snapshot() == SetField(old(Snapshot()), k, v)
      ensures config == old(config) && warnings == old(warnings) && effects == old(effects)
    {
      match k
      case ParallaxIf => parallaxIf := OptBool(v);
      case Disabled => disabled := OptBool(v);
    }

    /** Bind for the scroll source inputs. */
    method BindScroller(k: Key, v: Value)
      requires k.ScrollerId? || k.ScrollerSelector? || k.ScrollElement?
      requires WellTyped(k, v)
      modifies this
      ensures Snapshot() == SetField(old(Snapshot()), k, v)
      ensures config == old(config) && warnings == old(warnings) && effects == old(effects)
    {
      match k
      case ScrollerId => scrollerId := OptStr(v);
      case ScrollerSelector => scrollerSelector := OptStr(v);
      case ScrollElement => scrollElement := if v.Source? then Some(v.source) else None;
    }

    /** Bind for the callback inputs. */
    method BindCallback(k: Key, v: Value)
      requires k.Cb? || k.CbContext? || k.CbArgs?
      requires WellTyped(k, v)
      modifies this
      ensures Snapshot() == SetField(old(Snapshot()), k, v)
      ensures config == old(config) && warnings == old(warnings) && effects == old(effects)
    {
      match k
      case Cb => cb := if v.Fn? then Some(v.callback) else None;
      case CbContext => cbContext := if v.Ctx? then Some(v.context) else None;
      case CbArgs => cbArgs := if v.Args? then Some(v.args) else None;
    }

    /** Bind for the bound inputs. */
    method BindBounds(k: Key, v: Value)
      requires k.MaxValue? || k.MinValue?
      requires WellTyped(k, v)
      modifies this
      ensures Snapshot() == SetField(old(Snapshot()), k, v)
      ensures config == old(config) && warnings == old(warnings) && effects == old(effects)
    {
      match k
      case MaxValue => maxValue := OptNum(v);
      case MinValue => minValue := OptNum(v);
    }

    /** Bind for the unit and target element inputs. */
    method BindTarget(k: Key, v: Value)
      requires k.CssUnit? || k.ParallaxElement?
      requires WellTyped(k, v)
      modifies this
      ensures Snapshot() == SetField(old(Snapshot()), k, v)
      ensures config == old(config) && warnings == old(warnings) && effects == old(effects)
    {
      match k
      case CssUnit => cssUnit := v.s;
      case ParallaxElement => parallaxElement := if v.Elem? then Some(v.element) else None;
    }

    /** Angular binding the `config` input: only `config` changes; nothing is copied until prepareConfig. */
    method BindConfig(c: Option<Config>)
      modifies this`config
      ensures config == c
      ensures Snapshot() == old(Snapshot())
      ensures warnings == old(warnings) && effects == old(effects)
    {
      config := c;
    }

    /**
     * `prepareConfig`: defaults `config` to `{}`, warns once about the
     * deprecated fields in use, copies the whitelisted keys of `config` onto the
     * directive, and resolves the style property, ratio, initial value, target
     * element, scroll source, axis and disabled flag.
     */
    method PrepareConfig(dom: Dom)
      requires WellTypedConfig(ConfigOrEmpty(config))
      modifies this
      ensures config == Some(ConfigOrEmpty(old(config)))
      ensures Snapshot() == Prepare(old(Snapshot()), ConfigOrEmpty(old(config)), hostElement, dom).fields
      ensures warnings == old(warnings) + Prepare(old(Snapshot()), ConfigOrEmpty(old(config)), hostElement, dom).warnings
      ensures effects == old(effects)
    {
      if config.None? {
        config := Some(map[]);
      }
      ApplyConfig(config.value, dom);
    }

    /** prepareConfig once `config` is an object: the deprecation check, the copy and the resolution. */
    method ApplyConfig(cfg: Config, dom: Dom)
      requires WellTypedConfig(cfg)
      modifies this
      ensures Snapshot() == Prepare(old(Snapshot()), cfg, hostElement, dom).fields
      ensures warnings == old(warnings) + Prepare(old(Snapshot()), cfg, hostElement, dom).warnings
      ensures config == old(config) && effects == old(effects)
    {
      WarnDeprecated(cfg);
      assert Snapshot() == old(Snapshot());
      assert warnings == old(warnings) + DeprecationWarnings(old(Snapshot()), cfg);
      CopyAndResolve(cfg, dom);
      AppendAssoc(old(warnings), DeprecationWarnings(old(Snapshot()), cfg), Resolve(CopyConfig(old(Snapshot()), cfg), hostElement, dom).warnings);
    }

    /** The copy of the whitelisted keys of `cfg`, then the resolution steps. */
    method CopyAndResolve(cfg: Config, dom: Dom)
      requires WellTypedConfig(cfg)
      modifies this
      ensures Snapshot() == Resolve(CopyConfig(old(Snapshot()), cfg), hostElement, dom).fields
      ensures warnings == old(warnings) + Resolve(CopyConfig(old(Snapshot()), cfg), hostElement, dom).warnings
      ensures config == old(config) && effects == old(effects)
    {
      CopyConfigFields(cfg);
      ResolveFields(dom);
    }

    /** The deprecation check: one warning naming every deprecated field in use, if any is. */
    method WarnDeprecated(cfg: Config)
      modifies this`warnings
      ensures warnings == old(warnings) + DeprecationWarnings(Snapshot(), cfg)
    {
      var used := UsedDeprecatedFields(Snapshot(), cfg);
      if |used| > 0 {
        warnings := warnings + [DeprecatedFieldsUsed(Names(used))];
      }
    }

    /** `for (const key in this.config) if (whitelistedFields.includes(key)) this[key] = this.config[key]`. */
    method CopyConfigFields(cfg: Config)
      requires WellTypedConfig(cfg)
      modifies this
      ensures Snapshot() == CopyConfig(old(Snapshot()), cfg)
      ensures config == old(config) && warnings == old(warnings) && effects == old(effects)
    {
      ghost var bound := Snapshot();
      var remaining := cfg.Keys;
      while remaining != {}
        invariant remaining <= cfg.Keys
        invariant forall k :: FieldValue(Snapshot(), k) ==
                    if Name(k) in cfg && Name(k) !in remaining then cfg[Name(k)] else FieldValue(bound, k)
        invariant Snapshot().cssValue == bound.cssValue && Snapshot().isSpecialVal == bound.isSpecialVal
        invariant config == old(config) && warnings == old(warnings) && effects == old(effects)
        decreases remaining
      {
        var key :| key in remaining;
        CopyKey(cfg, key);
        remaining := remaining - {key};
      }
      Extensionality(Snapshot(), CopyConfig(bound, cfg));
    }

    /** One turn of the copy loop: `if (whitelistedFields.includes(key)) this[key] = this.config[key]`. */
    method CopyKey(cfg: Config, key: string)
      requires WellTypedConfig(cfg) && key in cfg
      modifies this
      ensures forall k :: FieldValue(Snapshot(), k) == if Name(k) == key then cfg[key] else FieldValue(old(Snapshot()), k)
      ensures Snapshot().cssValue == old(Snapshot()).cssValue && Snapshot().isSpecialVal == old(Snapshot()).isSpecialVal
      ensures config == old(config) && warnings == old(warnings) && effects == old(effects)
    {
      var field := FieldNamed(key);
      if field.Some? {
        Bind(field.value, cfg[key]);
        forall k ensures FieldValue(Snapshot(), k) == if k == field.value then cfg[key] else FieldValue(old(Snapshot()), k) {
          FieldValueAfterSetField(old(Snapshot()), field.value, cfg[key], k);
        }
        forall k | k != field.value ensures Name(k) != key {
          if Name(k) == key { NameInjective(k, field.value); }
        }
      }
    }

    /** The resolution steps of prepareConfig, on the fields as they stand after the copy. */
    method ResolveFields(dom: Dom)
      modifies this`styleProperty, this`cssKey, this`cssValue, this`isSpecialVal, this`ratio,
        this`initialValue, this`parallaxElement, this`scrollElement, this`axis, this`disabled, this`warnings
      ensures Snapshot() == Resolve(old(Snapshot()), hostElement, dom).fields
      ensures warnings == old(warnings) + Resolve(old(Snapshot()), hostElement, dom).warnings
    {
      var localAxis := ResolveStyleFields();
      ResolveNumbers();
      ResolveTarget();
      ResolveScroller(dom);
      ResolveSwitches(localAxis);
    }

    /** The style steps: the style property, then its split into `cssKey` and `cssValue`; returns the local `axis`. */
    method ResolveStyleFields() returns (localAxis: Option<AxisLetter>)
      modifies this`styleProperty, this`cssKey, this`cssValue, this`isSpecialVal
      ensures Snapshot() == SplitStep(StyleStep(old(Snapshot())))
      ensures localAxis == LocalAxis(InferredAxis(StyleSource(old(styleProperty), old(parallaxCss))), old(axis))
    {
      localAxis := ResolveStyleProperty();
      SplitStyleProperty();
    }

    /**
     * `this.styleProperty = styleProperty || parallaxCss || 'backgroundPositionY'`,
     * collapsed to `backgroundPosition` for that family; returns the local `axis`,
     * replaced by the letter the family names, if any.
     */
    method ResolveStyleProperty() returns (localAxis: Option<AxisLetter>)
      modifies this`styleProperty
      ensures Snapshot() == StyleStep(old(Snapshot()))
      ensures localAxis == LocalAxis(InferredAxis(StyleSource(old(styleProperty), old(parallaxCss))), old(axis))
    {
      localAxis := axis;
      styleProperty := Some(StyleSource(styleProperty, parallaxCss));
      if Includes(styleProperty.value, BackgroundPosition) {
        var letter := LetterAxis(styleProperty.value[|styleProperty.value| - 1]);
        if letter.Some? {
          localAxis := letter;
        }
        styleProperty := Some(BackgroundPosition);
      }
    }

    /** The style property split on `:` into `cssKey` and `cssValue`, the key standing in for an empty value. */
    method SplitStyleProperty()
      requires styleProperty.Some?
      modifies this`cssKey, this`cssValue, this`isSpecialVal
      ensures Snapshot() == SplitStep(old(Snapshot()))
    {
      var (key, value) := SplitStyle(styleProperty.value);
      cssKey := key;
      cssValue := value;
      isSpecialVal := cssValue.Some? && cssValue.value != "";
      if !isSpecialVal {
        cssValue := Some(cssKey);
      }
    }

    /** `this.ratio = +(ratio || parallaxRatio) || -.7` and `this.initialValue = +(initialValue || parallaxInitVal) || 0`. */
    method ResolveNumbers()
      modifies this`ratio, this`initialValue
      ensures Snapshot() == NumberStep(old(Snapshot()))
    {
      ratio := Some(ResolveRatio(ratio, parallaxRatio));
      initialValue := Some(ResolveInitialValue(initialValue, parallaxInitVal));
    }

    /** `this.parallaxElement = parallaxElement || this.hostElement`. */
    method ResolveTarget()
      modifies this`parallaxElement
      ensures Snapshot() == TargetStep(old(Snapshot()), hostElement)
    {
      if parallaxElement.None? {
        parallaxElement := Some(hostElement);
      }
    }

    /**
     * An explicit `scrollElement` is kept; otherwise the selector, or failing
     * that the ID, is looked up, warning when nothing is found; the window is
     * the fallback.
     */
    method ResolveScroller(dom: Dom)
      modifies this`scrollElement, this`warnings
      ensures Snapshot() == ScrollStep(old(Snapshot()), dom).fields
      ensures warnings == old(warnings) + ScrollStep(old(Snapshot()), dom).warnings
    {
      if scrollElement.None? {
        if TruthyStr(scrollerSelector) {
          var found := dom.querySelector(scrollerSelector.value);
          scrollElement := if found.Some? then Some(ElementSource(found.value)) else None;
          if scrollElement.None? {
            warnings := warnings + [SelectorNotFound(scrollerSelector.value)];
          }
        } else if TruthyStr(scrollerId) {
          var found := dom.getElementById(scrollerId.value);
          scrollElement := if found.Some? then Some(ElementSource(found.value)) else None;
          if scrollElement.None? {
            warnings := warnings + [IdNotFound(scrollerId.value)];
          }
        }
      }
      if scrollElement.None? {
        scrollElement := Some(WindowSource);
      }
    }

    /** `this.axis = axis || parallaxAxis || 'Y'` for the local `axis`, and `this.disabled`. */
    method ResolveSwitches(localAxis: Option<AxisLetter>)
      modifies this`axis, this`disabled
      ensures Snapshot() == SwitchStep(old(Snapshot()), localAxis)
    {
      axis := Some(AxisOrDefault(localAxis, parallaxAxis));
      disabled := Some(ResolveDisabled(disabled, parallaxIf));
    }

    /**
     * `evaluateScroll`: unless disabled, computes and clamps the value for the
     * current scroll offset, formats it, and then calls the legacy callback,
     * writes the style and emits `update`, in that order.
     */
    method EvaluateScroll(e: ScrollEvent, dom: Dom, toStr: real -> string)
      requires Ready(Snapshot())
      modifies this`effects
      ensures effects == old(effects) + ScrollEffects(Snapshot(), hostElement, dom, e, toStr)
    {
      if disabled == Some(true) {
        return;
      }
      var calcVal := ScrollPosition(dom);
      var resultVal := CssText(toStr(calcVal));

      if cb.Some? {
        var receiver := if cbContext.Some? then cbContext.value else ElementContext(hostElement);
        effects := effects + [CallbackInvoked(cb.value, receiver, e, if cbArgs.Some? then cbArgs.value else [])];
      }
      assert effects == old(effects) + CallbackEffects(Snapshot(), hostElement, e);

      effects := effects + [StyleWritten(parallaxElement.value, cssKey, resultVal)];

      effects := effects + [UpdateEmitted(e)];
    }

    /** The scroll offset times the ratio plus the initial value, clamped to the bounds. */
    method ScrollPosition(dom: Dom) returns (calcVal: real)
      requires Ready(Snapshot())
      ensures calcVal == ScrollResult(Snapshot(), dom)
    {
      var offset: real;
      match scrollElement.value {
        case WindowSource => offset := dom.scrollY;
        case ElementSource(el) => offset := dom.scrollTop(el);
      }
      calcVal := offset * ratio.value + initialValue.value;

      if maxValue.Some? && calcVal >= maxValue.value {
        calcVal := maxValue.value;
      } else if minValue.Some? && calcVal <= minValue.value {
        calcVal := minValue.value;
      }
    }

    /** The CSS text written for the number `number` (already converted to a string). */
    method CssText(number: string) returns (resultVal: string)
      requires isSpecialVal ==> cssValue.Some?
      ensures resultVal == Format(Snapshot(), number)
    {
      if cssKey == BackgroundPosition {
        if axis == Some(X) {
          resultVal := number + cssUnit + " 0";
        } else {
          resultVal := "0 " + number + cssUnit;
        }
      } else if isSpecialVal {
        resultVal := cssValue.value + "(" + number + cssUnit + ")";
      } else {
        resultVal := number + cssUnit;
      }
    }
  }
}
