/**
 * JSON values as the store and the schema see them.  Numbers are reals
 * (JavaScript numbers without NaN and the infinities); an object is a map
 * from property names to values.
 */
module JsonValue {
  import opened Wrappers

  datatype Json =
    | JNull
    | JBool(b: bool)
    | JNum(n: real)
    | JStr(s: string)
    | JArr(elems: seq<Json>)
    | JObj(fields: map<string, Json>)

  /** `v[name]` in JavaScript: the property if `v` is an object that has it, otherwise undefined. */
  function Member(v: Json, name: string): (r: Option<Json>)
    ensures r.Some? <==> v.JObj? && name in v.fields
    ensures r.Some? ==> r.value == v.fields[name]
  {
    if v.JObj? && name in v.fields then Some(v.fields[name]) else None
  }

  /** JavaScript truthiness of a possibly undefined value (NaN is not a Json number). */
  predicate Truthy(v: Option<Json>)
  {
    match v
    case None => false
    case Some(JNull) => false
    case Some(JBool(b)) => b
    case Some(JNum(n)) => n != 0.0
    case Some(JStr(s)) => s != ""
    case Some(JArr(_)) => true
    case Some(JObj(_)) => true
  }
}
