/**
 * Decoded JSON, the shape Go's encoding/json gives an `interface{}`:
 * nil, bool, number, string, []interface{} or map[string]interface{}.
 * Numbers are kept as integers; float64 values are not part of this model.
 */
module Json {

  datatype Json =
    | JNull
    | JBool(b: bool)
    | JNumber(n: int)
    | JString(s: string)
    | JArray(items: seq<Json>)
    | JObject(fields: map<string, Json>)

  /** An `interface{}` field whose value is Go's nil. */
  predicate IsNil(j: Json) { j.JNull? }
}
