/** JSON values as the project store and the workspace table hold them.
    Numbers are integers here. */
module Json {

  datatype Json =
    | JNull
    | JBool(b: bool)
    | JNum(n: int)
    | JStr(s: string)
    | JArr(items: seq<Json>)
    | JObj(fields: map<string, Json>)

  /** A JSON object: the records of the project store. */
  type Record = map<string, Json>
}
