/**
 * Untyped JavaScript values as `JSON.parse` delivers them from browser storage.
 * An object is the sequence of its own entries, in `Object.entries` order.
 */
module Json {

  /** A JavaScript number: finite, NaN, or one of the two infinities. */
  datatype Num = Finite(r: real) | NaN | PosInf | NegInf

  datatype Json =
    | JNull
    | JBool(b: bool)
    | JNumber(n: Num)
    | JString(s: string)
    | JArray(items: seq<Json>)
    | JObject(fields: seq<(string, Json)>)

  /** JavaScript truthiness: `!v` is its negation. */
  predicate Truthy(v: Json) {
    match v
    case JNull => false
    case JBool(b) => b
    case JNumber(n) => !n.NaN? && !(n.Finite? && n.r == 0.0)
    case JString(s) => s != ""
    case JArray(_) => true
    case JObject(_) => true
  }

  /** `typeof v === "object"`: null, arrays and objects. */
  predicate IsObjectType(v: Json) {
    v.JNull? || v.JArray? || v.JObject?
  }

  /** `typeof v === "number" && Number.isFinite(v)`. */
  predicate IsFiniteNumber(v: Json) {
    v.JNumber? && v.n.Finite?
  }
}
