/** JavaScript values as they come back from a JSON round trip through
    localStorage, with the truthiness the storage module relies on. */
module JsValues {

  datatype Option<+T> = None | Some(value: T)

  datatype Result<+R, +E> = Ok(value: R) | Err(error: E)

  /** A JSON value after `JSON.parse`. Numbers are modelled as integers
      (timestamps are whole milliseconds). */
  datatype Json =
    | JNull
    | JBool(b: bool)
    | JNum(n: int)
    | JStr(s: string)
    | JArr(items: seq<Json>)
    | JObj(members: map<string, Json>)

  /** JavaScript truthiness: `null`, `false`, `0` and `""` are falsy; every
      array and object, even an empty one, is truthy. */
  predicate Truthy(j: Json) {
    match j
    case JNull => false
    case JBool(b) => b
    case JNum(n) => n != 0
    case JStr(s) => s != ""
    case JArr(_) => true
    case JObj(_) => true
  }

  /** The empty array `[]`, the fallback of every collection read. */
  const EmptyArray: Json := JArr([])

  /** What a read from the store can throw. */
  datatype Thrown =
    | SyntaxError  // `JSON.parse` on text that is not JSON
    | TypeError    // reading a property of the parsed document `null`
}
