/** The values `json.loads` produces, as seen by the validators of the schema module. */
module Json {

  datatype JsonValue =
    | JNull
    | JBool(b: bool)
    | JNumber(literal: string)
    | JString(s: string)
    | JArray(items: seq<JsonValue>)
    | JObject(fields: map<string, JsonValue>)

  /** What `json.loads` gives for a text that starts with `[`: the elements of the array,
      or a `JSONDecodeError` carrying its message. */
  datatype Decoded = Items(items: seq<JsonValue>) | SyntaxError(message: string)

  /** `json.loads` itself is library code; the model takes it as a parameter. */
  type Decoder = string -> Decoded

  /** The one fact about `json.loads` that the model relies on: the empty text is not JSON. */
  predicate RejectsEmpty(decode: Decoder)
  {
    decode("").SyntaxError?
  }
}
