/** Values shared by the Python and the Go client models. */
module Common {

  /** Python's None / Go's nil next to a present value. */
  datatype Option<+T> = None | Some(value: T)

  /** A parsed JSON document (numbers are kept integral). */
  datatype Json =
    | JNull
    | JBool(b: bool)
    | JNum(n: int)
    | JStr(s: string)
    | JArr(items: seq<Json>)
    | JObj(fields: map<string, Json>)

  /** The body parsed as a JSON object, if it is one. */
  predicate IsObject(parsed: Option<Json>) {
    parsed.Some? && parsed.value.JObj?
  }
}
