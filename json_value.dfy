/**
 * Decoded JSON values as the proxy sees them after parsing, with Python's truthiness and
 * hashability, which decide how the listing of local models is read.
 */
module JsonValue {

  /** A decoded JSON document. Numbers are integers here; nothing in the proxy inspects them. */
  datatype Json =
    | JNull
    | JBool(b: bool)
    | JNum(n: int)
    | JStr(s: string)
    | JArr(items: seq<Json>)
    | JObj(fields: map<string, Json>)

  /** Python's `bool(v)` for the value `json.loads` produces. */
  predicate Truthy(v: Json) {
    match v
    case JNull => false
    case JBool(b) => b
    case JNum(n) => n != 0
    case JStr(s) => s != ""
    case JArr(items) => items != []
    case JObj(fields) => fields != map[]
  }

  /** Lists and dicts cannot be put into a Python set; everything else can. */
  predicate Hashable(v: Json) {
    !v.JArr? && !v.JObj?
  }

  /** `d.get(key)` on a decoded object, with Python's `None` for a missing key. */
  function Get(fields: map<string, Json>, key: string): Json {
    if key in fields then fields[key] else JNull
  }
}
