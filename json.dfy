/**
 * The JSON-like records the vendor SDK hands back: Python dicts, lists,
 * strings, numbers, booleans and None. A dict is a map from its keys to
 * values; key order (which only affects the rendered text) is not modelled.
 */
module Json {

  datatype Value =
    | Null
    | Bool(b: bool)
    | Num(n: int)
    | Str(s: string)
    | Arr(items: seq<Value>)
    | Obj(fields: map<string, Value>)

  /** A fetched dict. */
  type Record = map<string, Value>

  /** Python truthiness of a value, as used by `if value:`. */
  predicate Truthy(v: Value)
  {
    match v
    case Null => false
    case Bool(b) => b
    case Num(n) => n != 0
    case Str(s) => s != ""
    case Arr(items) => items != []
    case Obj(fields) => fields != map[]
  }
}
