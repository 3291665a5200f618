/** Values the client passes around: JSON as the remote API returns it, and the
    result dictionaries every operation of the client hands back. */
module Values {

  datatype Option<+T> = None | Some(value: T)

  /** A JSON value as decoded from a response body (floating-point numbers are
      not modelled). */
  datatype Json =
    | JNull
    | JBool(b: bool)
    | JInt(i: int)
    | JStr(s: string)
    | JList(items: seq<Json>)
    | JObject(fields: map<string, Json>)

  /** A JSON object: the shape of every answer the client returns. */
  type Dict = map<string, Json>

  /** The value the client stores for an optional string (`None` becomes JSON null). */
  function OptionalString(v: Option<string>): Json
  {
    match v
    case None => JNull
    case Some(s) => JStr(s)
  }
}
