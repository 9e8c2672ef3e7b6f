/** Parsed JSON values, as `JSON.parse` hands them to the mock mode, and the part of
    JavaScript's `typeof` operator that the replay path depends on. */
module Json {

  /** A parsed JSON value. Numbers are kept as integers; object members keep their order. */
  datatype JsonValue =
    | JNull
    | JBool(b: bool)
    | JNumber(n: int)
    | JString(s: string)
    | JArray(items: seq<JsonValue>)
    | JObject(members: seq<(string, JsonValue)>)

  /** The empty object literal `{}`. */
  const EmptyObject: JsonValue := JObject([])

  /** JavaScript's `typeof` applied to a parsed JSON value. `null` and arrays are
      reported as "object", exactly as the language does. */
  function TypeOf(v: JsonValue): (t: string)
    ensures t == "object" <==> (v.JNull? || v.JArray? || v.JObject?)
    ensures t == "string" <==> v.JString?
    ensures t == "number" <==> v.JNumber?
    ensures t == "boolean" <==> v.JBool?
  {
    match v
    case JNull => "object"
    case JBool(_) => "boolean"
    case JNumber(_) => "number"
    case JString(_) => "string"
    case JArray(_) => "object"
    case JObject(_) => "object"
  }
}
