/**
 * JSON values as the parser hands them to the command processor, and the
 * parsed top-level object of one message.
 */
module Json {

  datatype Option<+T> = None | Some(value: T)

  /** A JSON value. Reals are only ever passed through, never computed with. */
  datatype Json =
    | JNull
    | JBool(b: bool)
    | JInt(i: int)
    | JReal(r: real)
    | JString(s: string)
    | JArray(items: seq<Json>)
    | JObject(members: map<string, Json>)

  /** A parsed top-level JSON object: member name to value. Key order is not
      represented, so nothing can depend on it. */
  type Document = map<string, Json>
}
