/**
 * JavaScript values as the UI code handles them, the truthiness rules its
 * `||`, `&&` and `if (x)` tests rely on, and the host functions (number and
 * JSON parsing) that the model takes as parameters.
 */
module Js {
  import opened Wrappers

  /** A JavaScript value. `NaN` has no representation; see README. */
  datatype JsValue =
    | Undefined
    | Null
    | Bool(b: bool)
    | Num(n: real)
    | Str(s: string)
    | Arr(items: seq<JsValue>)
    | Obj(fields: map<string, JsValue>)

  /** JavaScript truthiness: `undefined`, `null`, `false`, `0` and `''` are falsy. */
  predicate Truthy(v: JsValue) {
    match v
    case Undefined => false
    case Null => false
    case Bool(b) => b
    case Num(n) => n != 0.0
    case Str(s) => s != ""
    case Arr(_) => true
    case Obj(_) => true
  }

  /** `a || b`: the left operand when it is truthy, otherwise the right one. */
  function Or(a: JsValue, b: JsValue): JsValue {
    if Truthy(a) then a else b
  }

  /** `v.length` for the values that have one (arrays and strings). */
  function Length(v: JsValue): Option<nat> {
    match v
    case Arr(items) => Some(|items|)
    case Str(s) => Some(|s|)
    case _ => None
  }

  /** `v[0]` for an array or a string with at least one element. */
  function First(v: JsValue): JsValue
    requires Length(v).Some? && Length(v).value > 0
  {
    match v
    case Arr(items) => items[0]
    case Str(s) => Str([s[0]])
  }

  /**
   * The host's parsing functions. `parseFloat` and `parseInt` give `None`
   * where JavaScript gives `NaN`; `parseJson` gives `None` where `JSON.parse`
   * throws; `reparseJson` is `JSON.parse` applied to a value that has already
   * been parsed (JavaScript first converts it to a string).
   */
  datatype Host = Host(
    parseFloat: string -> Option<real>,
    parseInt: string -> Option<int>,
    parseJson: string -> Option<JsValue>,
    reparseJson: JsValue -> Option<JsValue>)
}
