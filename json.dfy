/** The JSON-like values that model dictionaries exchange: what `json.dump`/`json.loads` carry. */
module Json {

  datatype Value =
    | Null
    | Bool(b: bool)
    | Int(i: int)
    | Str(s: string)
    | Arr(items: seq<Value>)
    | Dict(fields: map<string, Value>)

  /** Python's `bool(x)` on a decoded JSON value. */
  predicate Truthy(v: Value) {
    match v
    case Null => false
    case Bool(b) => b
    case Int(i) => i != 0
    case Str(s) => s != []
    case Arr(items) => items != []
    case Dict(fields) => fields != map[]
  }
}
