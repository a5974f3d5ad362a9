/** JSON values as produced by a JSON decoder, and the decoder itself as a value. */
module Json {
  import opened Wrappers

  /** A decoded JSON document. Numbers are integers in this model. */
  datatype Json =
    | JNull
    | JBool(b: bool)
    | JNum(n: int)
    | JStr(s: string)
    | JArr(items: seq<Json>)
    | JObj(fields: map<string, Json>)

  /** A JSON decoder: `None` when the text does not decode (a `JSONDecodeError`). */
  type Decoder = string -> Option<Json>
}
