/** The JSON values that requests, stored documents and policy arguments are made of. */
module JsonValue {
  import opened Wrappers

  /** A JSON value; numbers are modelled as integers. */
  datatype Json =
    | JNull
    | JBool(b: bool)
    | JNum(n: int)
    | JStr(s: string)
    | JArr(items: seq<Json>)
    | JObj(fields: map<string, Json>)

  /** The member `key` of an object, if it is an object that has one. */
  function Get(j: Json, key: string): (r: Option<Json>)
    ensures r.Some? <==> j.JObj? && key in j.fields
    ensures r.Some? ==> r.value == j.fields[key]
  {
    if j.JObj? && key in j.fields then Some(j.fields[key]) else None
  }

  /** The string member `key`, if there is one. */
  function StringAt(j: Json, key: string): (r: Option<string>)
    ensures r.Some? <==> Get(j, key).Some? && Get(j, key).value.JStr?
    ensures r.Some? ==> Get(j, key) == Some(JStr(r.value))
  {
    match Get(j, key)
    case Some(JStr(s)) => Some(s)
    case _ => None
  }

  /** The numeric member `key`, if there is one. */
  function NumberAt(j: Json, key: string): (r: Option<int>)
    ensures r.Some? <==> Get(j, key).Some? && Get(j, key).value.JNum?
    ensures r.Some? ==> Get(j, key) == Some(JNum(r.value))
  {
    match Get(j, key)
    case Some(JNum(n)) => Some(n)
    case _ => None
  }

  /** The object member `key`, if there is one. */
  function ObjectAt(j: Json, key: string): (r: Option<Json>)
    ensures r.Some? <==> Get(j, key).Some? && Get(j, key).value.JObj?
    ensures r.Some? ==> Get(j, key) == r && r.value.JObj?
  {
    match Get(j, key)
    case Some(JObj(f)) => Some(JObj(f))
    case _ => None
  }
}
