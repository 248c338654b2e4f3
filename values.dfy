/**
 * Plain values shared by the model: an optional value, and the JSON values
 * that travel in request and response bodies (the source types them as
 * `Record<string, unknown>` and `unknown`).
 */
module Values {

  datatype Option<+T> = None | Some(value: T)

  /** A JSON value. Numbers are kept as integers. */
  datatype Json =
    | JNull
    | JBool(b: bool)
    | JNumber(n: int)
    | JString(s: string)
    | JArray(items: seq<Json>)
    | JObject(fields: map<string, Json>)
}
