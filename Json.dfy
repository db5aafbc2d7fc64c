/** The values that `json.loads` produces and that `JsonResponse` serialises. */
module Json {
  import opened Wrappers

  /** A decoded JSON document. `JNull` is Python's `None`, whatever produced it. */
  datatype Json =
    | JNull
    | JBool(b: bool)
    | JNum(n: int)
    | JStr(s: string)
    | JArr(items: seq<Json>)
    | JObj(fields: map<string, Json>)

  /** How an f-string renders a value that is a string or None. */
  function Str(o: Option<string>): string {
    match o
    case Some(s) => s
    case None => "None"
  }
}
