/**
 * Untyped JavaScript values as they arrive from the backend (`unknown` in the
 * TypeScript sources), with the operators the mappers apply to them:
 * property access, `??`, truthiness and `String(...)`.
 *
 * Numbers are integers here: prices are counted in cents, and NaN, fractions
 * and infinities are not values of this model.
 */
module JsValues {
  import Strings

  datatype JsValue =
    | Undefined
    | Null
    | Bool(b: bool)
    | Num(n: int)
    | Str(s: string)
    | Obj(fields: map<string, JsValue>)

  /** `v === null || v === undefined`: the values `??` skips. */
  predicate IsNullish(v: JsValue) {
    v.Undefined? || v.Null?
  }

  /** `a ?? b`. */
  function Coalesce(a: JsValue, b: JsValue): JsValue {
    if IsNullish(a) then b else a
  }

  /** JavaScript truthiness (`!!v`). */
  predicate Truthy(v: JsValue) {
    match v
    case Undefined => false
    case Null => false
    case Bool(b) => b
    case Num(n) => n != 0
    case Str(s) => s != ""
    case Obj(_) => true
  }

  /** `v[key]` on a record; any other value has no such property. */
  function Get(v: JsValue, key: string): JsValue {
    if v.Obj? && key in v.fields then v.fields[key] else Undefined
  }

  /** `String(v)`: exact for integers, strings, booleans, null, undefined and
      plain objects. */
  function JsString(v: JsValue): string {
    match v
    case Undefined => "undefined"
    case Null => "null"
    case Bool(b) => if b then "true" else "false"
    case Num(n) => Strings.IntToString(n)
    case Str(s) => s
    case Obj(_) => "[object Object]"
  }

  /** A truthy value never prints as the empty string. */
  lemma TruthyTextNonEmpty(v: JsValue)
    requires Truthy(v)
    ensures JsString(v) != ""
  {
    if v.Num? {
      if v.n < 0 {
        assert JsString(v) == "-" + Strings.NatToString(-v.n);
      }
    }
  }
}
