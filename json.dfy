/**
 * Parsed JSON values as the client sees them after `resp.json()`, and the
 * Python truthiness the client applies to them (`x or default`, `if x`).
 * Numbers are integers; floating point is not modelled.
 */
module Json {

  datatype Json =
    | JNull
    | JBool(b: bool)
    | JNum(n: int)
    | JStr(s: string)
    | JArr(items: seq<Json>)
    | JObj(fields: map<string, Json>)

  type Object = map<string, Json>

  /** Python truthiness: None, False, 0, "", [] and {} are false, everything else true. */
  predicate Truthy(v: Json) {
    match v
    case JNull => false
    case JBool(b) => b
    case JNum(n) => n != 0
    case JStr(s) => s != ""
    case JArr(xs) => xs != []
    case JObj(m) => m != map[]
  }

  /** `d.get(key)` on a dict: a missing key reads as None. */
  function DictGet(m: Object, key: string): Json {
    if key in m then m[key] else JNull
  }
}
