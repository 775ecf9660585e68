/**
 * The values the parallax directive handles: the axis letters, handles for the
 * DOM objects it refers to, the dynamically typed values a configuration object
 * may carry, the document it queries, and the warnings and effects it produces.
 */
module ParallaxTypes {
  import opened Wrappers

  /** The two directions of a `backgroundPosition` effect: the TypeScript `'X'|'Y'`. */
  datatype AxisLetter = X | Y

  /** An `HTMLElement`, identified by a handle; its behaviour is not modelled. */
  datatype Element = Element(id: nat)

  /** What `scrollElement` may hold: an element or the window (`HTMLElement|Window`). */
  datatype ScrollSource = WindowSource | ElementSource(element: Element)

  /** A legacy `cb` function; what it does when called is foreign code. */
  datatype Callback = Callback(id: nat)

  /** A `cb_context` value: the `this` the callback is bound to. */
  datatype Context = ElementContext(element: Element) | OtherContext(id: nat)

  /** One of the `cb_args` values passed on to the callback. */
  datatype Arg = Arg(id: nat)

  /** The scroll event that triggered an evaluation. */
  datatype ScrollEvent = ScrollEvent(id: nat)

  /** A value stored under a key of the `config` object. */
  datatype Value =
    | Undefined
    | Str(s: string)
    | Num(n: real)
    | Bool(b: bool)
    | Letter(letter: AxisLetter)
    | Source(source: ScrollSource)
    | Elem(element: Element)
    | Fn(callback: Callback)
    | Ctx(context: Context)
    | Args(args: seq<Arg>)

  /** The `config` object: its own enumerable keys and the values under them. */
  type Config = map<string, Value>

  /** JavaScript truthiness: `undefined`, `''`, `0` and `false` are falsy; objects are truthy. */
  predicate Truthy(v: Value)
  {
    match v
    case Undefined => false
    case Str(s) => s != ""
    case Num(n) => n != 0.0
    case Bool(b) => b
    case _ => true
  }

  /** Truthiness of an optional string input. */
  predicate TruthyStr(o: Option<string>)
  {
    o.Some? && o.value != ""
  }

  /** Truthiness of an optional numeric input. */
  predicate TruthyNum(o: Option<real>)
  {
    o.Some? && o.value != 0.0
  }

  /**
   * The parts of the browser the directive reads: the selector and id lookups
   * (`document.querySelector`, `document.getElementById`, `null` as `None`) and
   * the current scroll offsets (`window.scrollY`, `element.scrollTop`).
   */
  datatype Dom = Dom(
    querySelector: string -> Option<Element>,
    getElementById: string -> Option<Element>,
    scrollY: real,
    scrollTop: Element -> real)

  /** A `console.warn` call, recorded by the fields it names rather than its text. */
  datatype Warning =
    | DeprecatedFieldsUsed(fields: seq<string>)
    | SelectorNotFound(selector: string)
    | IdNotFound(id: string)

  /** An observable effect of handling one scroll event. */
  datatype Effect =
    | CallbackInvoked(callback: Callback, receiver: Context, event: ScrollEvent, args: seq<Arg>)
    | StyleWritten(target: Element, property: string, value: string)
    | UpdateEmitted(event: ScrollEvent)
}
