/** Parsed JSON values, as `JSON.parse` returns them. The parser itself is not modelled. */
module Json {
  import opened Wrappers

  /** A JSON value. Numbers are modelled as integers. */
  datatype Json =
    | JNull
    | JBool(b: bool)
    | JNumber(n: int)
    | JString(s: string)
    | JArray(items: seq<Json>)
    | JObject(fields: map<string, Json>)

  /** `{}`: what the client uses for an empty response body. */
  const EmptyObject: Json := JObject(map[])

  /**
   * `value.hasOwnProperty('error')`. None when JavaScript throws: on `null`, and on an object
   * whose own `hasOwnProperty` key (a parsed value, never a function) hides the inherited
   * method. A boolean, number, string or array never has an own property named `error`.
   */
  function HasOwnError(v: Json): (r: Option<bool>)
    ensures r.None? <==> v.JNull? || (v.JObject? && "hasOwnProperty" in v.fields)
    ensures r == Some(true) <==> v.JObject? && "hasOwnProperty" !in v.fields && "error" in v.fields
  {
    match v
    case JNull => None
    case JObject(fields) => if "hasOwnProperty" in fields then None else Some("error" in fields)
    case _ => Some(false)
  }
}
