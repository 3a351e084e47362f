/**
 * Decoded JSON values, as the client receives them from `r.json()` and sends
 * them with `requests`, together with Python's truthiness rules for them.
 */
module Json {
  import opened Wrappers

  /** A decoded JSON document. Numbers are integers in this model. */
  datatype Value =
    | JNull
    | JBool(b: bool)
    | JNum(n: int)
    | JStr(s: string)
    | JArr(items: seq<Value>)
    | JObj(fields: map<string, Value>)

  /** Python's `bool(v)` for a decoded value: `None`, `False`, `0`, `""`, `[]` and `{}` are false. */
  predicate Truthy(v: Value)
  {
    match v
    case JNull => false
    case JBool(b) => b
    case JNum(n) => n != 0
    case JStr(s) => s != ""
    case JArr(items) => items != []
    case JObj(fields) => |fields| > 0
  }

  /** Python's `bool(x)` for an argument typed `str | None`. */
  predicate TruthyText(x: Option<string>)
  {
    x.Some? && x.value != ""
  }

  /** How `requests` encodes a `str | None` field of a JSON body. */
  function TextOrNull(x: Option<string>): Value
  {
    if x.Some? then JStr(x.value) else JNull
  }
}
