/** Python values as the command-line layer sees them: `Optional[...]` flags,
    parsed JSON documents, and Python's truth test on both. */
module Values {

  /** `Optional[T]`: `None` or a present value. */
  datatype Option<+T> = None | Some(value: T)

  /** A document as `json.loads` returns it. Numbers are kept as integers. */
  datatype Json =
    | JNull
    | JBool(b: bool)
    | JNumber(n: int)
    | JString(s: string)
    | JArray(items: seq<Json>)
    | JObject(fields: map<string, Json>)

  /** Python's truth test on an `Optional[bool]`: `None` and `False` are falsy. */
  predicate FlagSet(flag: Option<bool>)
  {
    match flag
    case None => false
    case Some(b) => b
  }

  /** Python's truth test on a JSON value: `None`, `False`, `0`, `""`, `[]`
      and `{}` are falsy, everything else is truthy. */
  predicate Truthy(v: Json)
  {
    match v
    case JNull => false
    case JBool(b) => b
    case JNumber(n) => n != 0
    case JString(s) => s != ""
    case JArray(items) => items != []
    case JObject(fields) => fields != map[]
  }

  /** `d.get(key, default)` on a dictionary. */
  function DictGet(d: map<string, Json>, key: string, default: Json): Json
  {
    if key in d then d[key] else default
  }
}
