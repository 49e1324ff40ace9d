/** JSON values as `JSON.parse` produces them, for the free-form fields of the store
    (audit-log metadata, analytics payloads, extra top-level keys of the data file)
    and for the feature-flag overrides. Numbers are integers here. */
module Json {

  datatype Json =
    | JNull
    | JBool(b: bool)
    | JNumber(n: int)
    | JString(s: string)
    | JArray(items: seq<Json>)
    | JObject(fields: map<string, Json>)

  /** What `JSON.parse(text)` does: a value, or the `SyntaxError` it throws. */
  datatype Parsed = Parsed(value: Json) | SyntaxError

  /** A `Record<string, string>` seen as a JSON object. */
  function StringRecord(m: map<string, string>): (r: map<string, Json>)
    ensures r.Keys == m.Keys
    ensures forall k :: k in m ==> r[k] == JString(m[k])
  {
    map k | k in m :: JString(m[k])
  }
}
