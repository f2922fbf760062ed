/** Values exchanged with the upstream data provider: parsed JSON bodies
    and Python's notion of truthiness on them. */
module Json {

  datatype Option<+T> = None | Some(value: T)

  /** A parsed JSON value. Numbers are integers only (floats are not modelled). */
  datatype Json =
    | JNull
    | JBool(b: bool)
    | JNum(n: int)
    | JStr(s: string)
    | JArr(items: seq<Json>)
    | JObj(fields: map<string, Json>)

  /** A response body: a JSON object, keyed by field name. */
  type Payload = map<string, Json>

  /** Python's `bool(v)` on the value `json.loads` produces: None, False, 0,
      the empty string, the empty list and the empty dict are falsy. */
  predicate Truthy(v: Json) {
    match v
    case JNull => false
    case JBool(b) => b
    case JNum(n) => n != 0
    case JStr(s) => s != ""
    case JArr(items) => items != []
    case JObj(fields) => fields != map[]
  }

  /** Python's `d.get(key, default)`. */
  function GetOr(d: Payload, key: string, default: Json): (v: Json)
    ensures key in d ==> v == d[key]
    ensures key !in d ==> v == default
  {
    if key in d then d[key] else default
  }
}
