/**
 * Untyped JSON values as the app receives them from `res.json()`, with the
 * JavaScript truthiness rules the hooks rely on (`if (result.data)`,
 * `x || fallback`) and property access on a parsed value.
 */
module Json {
  import opened Wrappers

  datatype Json =
    | JNull
    | JBool(b: bool)
    | JNum(n: real)
    | JStr(s: string)
    | JArr(items: seq<Json>)
    | JObj(fields: map<string, Json>)

  /** JavaScript truthiness of a parsed JSON value. */
  predicate Truthy(j: Json) {
    match j
    case JNull => false
    case JBool(b) => b
    case JNum(n) => n != 0.0
    case JStr(s) => s != ""
    case JArr(_) => true
    case JObj(_) => true
  }

  /**
   * `j.key` on a value that is not null: only objects have own properties,
   * every other value gives `undefined` (None).
   */
  function Lookup(j: Json, key: string): (r: Option<Json>)
    ensures r.Some? <==> j.JObj? && key in j.fields
    ensures r.Some? ==> r.value == j.fields[key]
  {
    if j.JObj? && key in j.fields then Some(j.fields[key]) else None
  }

  /** `v || fallback`, where None stands for `undefined`. */
  function OrElse(v: Option<Json>, fallback: Json): (r: Json)
    ensures v.Some? && Truthy(v.value) ==> r == v.value
    ensures !(v.Some? && Truthy(v.value)) ==> r == fallback
  {
    if v.Some? && Truthy(v.value) then v.value else fallback
  }

  /** `Array.isArray(v)`, where None stands for `undefined`. */
  predicate IsArray(v: Option<Json>) {
    v.Some? && v.value.JArr?
  }
}
