/**
 * JSON values as the bot handles them through Python: the per-user session
 * dictionary, request payloads and decoded API responses.
 */
module Json {

  /** A decoded JSON value. `Num` stands for any JSON number. */
  datatype Value =
    | Null
    | Bool(b: bool)
    | Num(n: int)
    | Str(s: string)
    | Arr(items: seq<Value>)
    | Obj(fields: map<string, Value>)

  /** A Python `dict` with string keys. */
  type Dict = map<string, Value>

  /** Python truthiness: `None`, `False`, `0` and empty containers are falsy. */
  predicate Truthy(v: Value) {
    match v
    case Null => false
    case Bool(b) => b
    case Num(n) => n != 0
    case Str(s) => s != []
    case Arr(items) => items != []
    case Obj(fields) => fields != map[]
  }

  /** `d.get(k)` tested for truthiness: a missing key reads as `None`. */
  predicate TruthyAt(d: Dict, k: string) {
    k in d && Truthy(d[k])
  }

  /** `d.get(k, default)`. */
  function GetOr(d: Dict, k: string, default: Value): Value {
    if k in d then d[k] else default
  }

  /** `v[:n]` succeeds on strings and lists and raises on every other value. */
  predicate Sliceable(v: Value) {
    v.Str? || v.Arr?
  }

  /** `v / 100` succeeds on numbers and booleans and raises on every other value. */
  predicate Divisible(v: Value) {
    v.Num? || v.Bool?
  }
}
