/**
 The values the service exchanges: JSON documents, the dictionaries it stores
 as job records, and the HTTP responses it returns.
 */
module Json {

  datatype Option<+T> = None | Some(value: T)

  /** A JSON value as produced by `json.load` or handed to `JSONResponse`. */
  datatype Json =
    | JNull
    | JBool(b: bool)
    | JNum(n: int)
    | JStr(s: string)
    | JArr(items: seq<Json>)
    | JObj(fields: map<string, Json>)

  /** A job record is a JSON object: a Python dict with string keys. */
  type Record = map<string, Json>

  /** An HTTP response: status code and JSON body. */
  datatype Response = Response(code: int, body: Json)

  /** The body the generic exception handler returns with status 500. */
  const InternalErrorBody: Json := JObj(map["message" := JStr("An internal server error occurred.")])

  /** Whether Python treats the value as false in `if not value`. */
  function Falsy(v: Option<Record>): (falsy: bool)
    ensures falsy <==> v.None? || |v.value| == 0
  {
    v == None || v == Some(map[])
  }
}
