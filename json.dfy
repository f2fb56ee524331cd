/** The values `JSON.parse` produces, and the two JavaScript rules the
    client's handlers apply to them: reading a named property and testing a
    value for truthiness. */
module JsonValues {
  import opened Wrappers

  /** A parsed JSON value. Object keys are unique once parsed (the last
      duplicate wins), so an object is a map. */
  datatype Json =
    | JNull
    | JBool(b: bool)
    | JNum(n: real)
    | JStr(s: string)
    | JArr(items: seq<Json>)
    | JObj(fields: map<string, Json>)

  /** `v.key` for the keys the client reads ("type", "id", "access_token",
      "team_id"): an object's own property, `undefined` for any other value.
      Reading a property of `null` throws; callers test `JNull?` first. */
  function Get(v: Json, key: string): (r: Option<Json>)
    ensures r.Some? <==> v.JObj? && key in v.fields
    ensures r.Some? ==> r.value == v.fields[key]
  {
    match v
    case JObj(fields) => if key in fields then Some(fields[key]) else None
    case _ => None
  }

  /** JavaScript truthiness of a possibly-undefined JSON value. */
  predicate Truthy(v: Option<Json>): (r: bool)
    ensures r <==> v.Some? && v.value !in {JNull, JBool(false), JNum(0.0), JStr("")}
  {
    match v
    case None => false
    case Some(JNull) => false
    case Some(JBool(b)) => b
    case Some(JNum(n)) => n != 0.0
    case Some(JStr(s)) => s != ""
    case Some(JArr(_)) => true
    case Some(JObj(_)) => true
  }

  /** JavaScript truthiness of an optional string argument: `undefined` and
      the empty string are falsy. */
  predicate Present(key: Option<string>): (r: bool)
    ensures r <==> key != None && key != Some("")
  {
    key.Some? && key.value != ""
  }
}
