/**
 * JavaScript values as `JSON.parse` and the backend produce them, and the two
 * rules of the language the core depends on: truthiness and property reads.
 */
module JsValue {

  /** A value `JSON.parse` can produce. `JNum` stands for the parsed number, taken as an exact real. */
  datatype Json =
    | JNull
    | JBool(b: bool)
    | JNum(n: real)
    | JStr(s: string)
    | JArray(items: seq<Json>)
    | JObject(members: map<string, Json>)

  /** What reading a property yields: `undefined`, or a value. */
  datatype Field = Undefined | Defined(value: Json)

  /** JavaScript truthiness of a value: null, false, 0 and "" are falsy; arrays and objects never are. */
  predicate Truthy(v: Json) {
    match v
    case JNull => false
    case JBool(b) => b
    case JNum(n) => n != 0.0
    case JStr(s) => s != ""
    case JArray(_) => true
    case JObject(_) => true
  }

  /** Truthiness of a property read: `undefined` is falsy. */
  predicate IsTruthy(f: Field) {
    f.Defined? && Truthy(f.value)
  }

  /**
   * `v.key` for a value that is not null (reading a property of null throws a
   * TypeError). Only an object's own members are looked at: the keys the core
   * reads (`userId`, `amount`, `id`) are not inherited from any prototype.
   */
  function Prop(v: Json, key: string): Field
    requires !v.JNull?
  {
    if v.JObject? && key in v.members then Defined(v.members[key]) else Undefined
  }
}
