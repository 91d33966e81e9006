/**
 * Decoded JSON values, as the proxy's Python code sees them after `json.loads`
 * or `request.json()`. `JNull` is Python's `None`.
 */
module JsonValues {

  datatype Json =
    | JNull
    | JBool(b: bool)
    | JNum(n: real)
    | JStr(s: string)
    | JArr(items: seq<Json>)
    | JObj(fields: map<string, Json>)

  /** Python truthiness of a decoded value: `None`, `False`, `0`, `""`, `[]` and `{}` are false. */
  predicate Truthy(j: Json) {
    match j
    case JNull => false
    case JBool(b) => b
    case JNum(n) => n != 0.0
    case JStr(s) => s != []
    case JArr(items) => items != []
    case JObj(fields) => fields != map[]
  }
}
