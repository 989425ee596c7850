/** The decoded form of a JSON document, as `encoding/json` produces it into `any`. */
module JsonValue {

  /** JSON numbers are kept as integers: no value the model inspects is fractional. */
  datatype Json =
    | Null
    | Bool(b: bool)
    | Num(n: int)
    | Str(s: string)
    | Arr(items: seq<Json>)
    | Obj(fields: map<string, Json>)

  /** A decoded JSON object, Go's `map[string]any`. */
  type Object = map<string, Json>

  /** What `Encode()` yields: the document written to the client (standing for
      its bytes) and the content type. */
  datatype Encoded = Encoded(data: Json, contentType: string)

  const ContentTypeJSON: string := "application/json"
}
