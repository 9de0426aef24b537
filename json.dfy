/** The values that `json.load`/`resp.json()` produce and that the scripts pass
    around as `dict`/`list`. Numbers are integers only. */
module Json {

  datatype Json =
    | JNull
    | JBool(b: bool)
    | JInt(n: int)
    | JStr(s: string)
    | JList(items: seq<Json>)
    | JObj(fields: map<string, Json>)

  /** A JSON object as the scripts use it: a `dict` with string keys. */
  type Dict = map<string, Json>

  /** Python truthiness: None, False, 0, "", [] and {} are false. */
  predicate Truthy(j: Json)
  {
    match j
    case JNull => false
    case JBool(b) => b
    case JInt(n) => n != 0
    case JStr(s) => s != ""
    case JList(items) => items != []
    case JObj(fields) => fields != map[]
  }

  /** `d.get(k)` */
  function Get(d: Dict, k: string): Json
  {
    if k in d then d[k] else JNull
  }

  /** `d.get(k, default)` */
  function GetOr(d: Dict, k: string, default: Json): Json
  {
    if k in d then d[k] else default
  }
}
