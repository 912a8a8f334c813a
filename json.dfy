/** Decoded JSON values, the shape of what Python's `json.loads` returns.
    Decoding itself is not modelled: callers receive a decoder as a parameter. */
module Json {

  /** A JSON object decodes to a Python dict; a repeated key keeps its last value,
      so an object is a map from member names to values. */
  datatype Json =
    | JNull
    | JBool(b: bool)
    | JNumber(n: real)
    | JString(s: string)
    | JArray(items: seq<Json>)
    | JObject(members: map<string, Json>)

  /** Python's `d.get(key, default)` on a decoded object. */
  function Get(members: map<string, Json>, key: string, default: Json): (v: Json)
    ensures key in members ==> v == members[key]
    ensures key !in members ==> v == default
  {
    if key in members then members[key] else default
  }
}
