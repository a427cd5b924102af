/** JSON values as the Python code sees them after decoding, together with
    Python's truthiness and `dict.get`. */
module JsonValues {

  /** A decoded JSON document. `JNull` is Python's `None`: the two are one value
      in the source, so the model does not distinguish them either. Numbers are
      integers only (see README, "Left out"). */
  datatype Json =
    | JNull
    | JBool(b: bool)
    | JNum(n: int)
    | JStr(s: string)
    | JArr(items: seq<Json>)
    | JObj(fields: map<string, Json>)

  /** Python's `bool(v)`: `None`, `False`, `0`, `""`, `[]` and `{}` are falsy. */
  predicate Truthy(v: Json) {
    match v
    case JNull => false
    case JBool(b) => b
    case JNum(n) => n != 0
    case JStr(s) => s != ""
    case JArr(items) => items != []
    case JObj(fields) => fields != map[]
  }

  /** Python's `d.get(key, default)` on a dictionary. */
  function Get(fields: map<string, Json>, key: string, default: Json): Json {
    if key in fields then fields[key] else default
  }

  /** The empty dictionary `{}`. */
  const EmptyObject: Json := JObj(map[])
}
