/**
 * The JavaScript values that can reach the handler inside a parsed JSON
 * request body, with the two JavaScript conversions the handler relies on:
 * truthiness (`!device[key]`, `if (!device.id)`) and the string conversion a
 * template literal applies (`${device.id}`).
 */
module JsValue {

  /**
   * A value read from the request body. `Undefined` is what reading an absent
   * property yields. A number carries its numeric value (for truthiness) and
   * the text JavaScript prints for it (for template literals); the two are
   * taken as given, since number formatting is not modelled. Arrays are not
   * distinguished from other objects.
   */
  datatype JsValue =
    | Undefined
    | Null
    | Bool(b: bool)
    | Num(value: real, text: string)
    | Str(s: string)
    | Obj

  /** JavaScript truthiness: everything is truthy except undefined, null, false, 0 and "". */
  predicate Truthy(v: JsValue) {
    match v
    case Undefined => false
    case Null => false
    case Bool(b) => b
    case Num(x, _) => x != 0.0
    case Str(s) => s != ""
    case Obj => true
  }

  /** The falsy values are exactly undefined, null, false, the number 0 and the empty string. */
  lemma FalsyValues(v: JsValue)
    ensures !Truthy(v) <==> v == Undefined || v == Null || v == Bool(false) || v == Str("") || (v.Num? && v.value == 0.0)
  {
  }

  /** The string a template literal substitutes for `v`. */
  function Render(v: JsValue): string {
    match v
    case Undefined => "undefined"
    case Null => "null"
    case Bool(b) => if b then "true" else "false"
    case Num(_, text) => text
    case Str(s) => s
    case Obj => "[object Object]"
  }

  /** A parsed request body: property names to values. */
  type Body = map<string, JsValue>

  /** Property access `body[key]`: an absent property reads as undefined. */
  function Get(body: Body, key: string): JsValue {
    if key in body then body[key] else Undefined
  }
}
