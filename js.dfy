/**
 * The fragment of ECMAScript that the data-access objects rely on when they
 * read a backend response: JSON-like values, property reads, and the two
 * different notions of "absent" used by `??` (nullish) and by `||` and the
 * conditional operator (ToBoolean, section 7.1.2 of ECMA-262).
 */
module Js {

  /** A runtime value as found in a decoded response body. Numbers are
      integers here; NaN, -0 and fractions are not modelled. */
  datatype JsValue =
    | Undefined
    | Null
    | Bool(b: bool)
    | Num(n: int)
    | Str(s: string)
    | Arr(items: seq<JsValue>)
    | Obj(fields: map<string, JsValue>)

  /** The test made by `??` and `?.`: null or undefined. */
  predicate IsNullish(v: JsValue) {
    v.Undefined? || v.Null?
  }

  /** ToBoolean: undefined, null, false, 0 and "" are falsy; every object
      and array, even an empty one, is truthy. */
  predicate IsTruthy(v: JsValue)
    ensures IsTruthy(v) ==> !IsNullish(v)
  {
    match v
    case Undefined => false
    case Null => false
    case Bool(b) => b
    case Num(n) => n != 0
    case Str(s) => s != ""
    case Arr(_) => true
    case Obj(_) => true
  }

  /** `v.key` on a value that is neither null nor undefined (on those the
      read throws a TypeError, which the callers model). A missing key and
      any key of a primitive or an array read as undefined. */
  function Prop(v: JsValue, key: string): JsValue
    requires !IsNullish(v)
  {
    match v
    case Obj(fields) => if key in fields then fields[key] else Undefined
    case _ => Undefined
  }

  /** `v?.key`: undefined when `v` is nullish. */
  function OptProp(v: JsValue, key: string): JsValue {
    if IsNullish(v) then Undefined else Prop(v, key)
  }

  /** `a ?? b` */
  function Coalesce(a: JsValue, b: JsValue): JsValue {
    if IsNullish(a) then b else a
  }

  /** `a || b` (returns an operand, not a boolean) */
  function Or(a: JsValue, b: JsValue): JsValue {
    if IsTruthy(a) then a else b
  }
}
