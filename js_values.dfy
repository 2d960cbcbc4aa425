// The slice of JavaScript's value semantics the loader relies on: what
// `typeof` answers, which values are falsy, and reading a named property.

module JsValues {

  /** A JavaScript value. Numbers are exact reals; NaN is kept apart because
      it is the one number that is neither zero nor non-zero for truthiness.
      Objects (arrays included) and functions are their own property maps. */
  datatype JsValue =
    | Undefined
    | Null
    | Bool(b: bool)
    | Num(n: real)
    | NaN
    | Str(s: string)
    | Object(props: map<string, JsValue>)
    | Function(props: map<string, JsValue>)

  /** The string the `typeof` operator yields; note `typeof null == "object"`. */
  function Typeof(v: JsValue): string
  {
    match v
    case Undefined => "undefined"
    case Null => "object"
    case Bool(_) => "boolean"
    case Num(_) => "number"
    case NaN => "number"
    case Str(_) => "string"
    case Object(_) => "object"
    case Function(_) => "function"
  }

  /** ToBoolean: undefined, null, false, 0, -0, NaN and "" are falsy. */
  predicate Truthy(v: JsValue)
  {
    match v
    case Undefined => false
    case Null => false
    case Bool(b) => b
    case Num(n) => n != 0.0
    case NaN => false
    case Str(s) => s != ""
    case Object(_) => true
    case Function(_) => true
  }

  /** Reading `v[key]` on a value that is not null or undefined: an own
      property if there is one, otherwise `undefined` (no key the loader reads
      lives on a prototype). */
  function Get(v: JsValue, key: string): JsValue
    requires !v.Null? && !v.Undefined?
  {
    match v
    case Object(props) => if key in props then props[key] else Undefined
    case Function(props) => if key in props then props[key] else Undefined
    case _ => Undefined
  }
}
