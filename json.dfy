/** Python values as they appear in server metadata, tokens and keyword
    arguments: the JSON shapes plus the truthiness and dict operations the
    client code relies on. */
module Json {

  /** A JSON-like value. `Null` stands for Python's `None`. */
  datatype Value =
    | Null
    | Bool(b: bool)
    | Int(i: int)
    | Str(s: string)
    | List(items: seq<Value>)
    | Object(fields: map<string, Value>)

  /** A Python `dict` with string keys. */
  type Dict = map<string, Value>

  /** Python truthiness: `None`, `False`, `0`, `''`, `[]` and `{}` are false. */
  predicate Truthy(v: Value) {
    match v
    case Null => false
    case Bool(b) => b
    case Int(i) => i != 0
    case Str(s) => s != ""
    case List(items) => items != []
    case Object(fields) => fields != map[]
  }

  /** `d.get(key)`: the stored value, or `None` when the key is absent. */
  function Get(d: Dict, key: string): Value {
    if key in d then d[key] else Null
  }

  /** `d.update(other)` as a value: every key of `other` overwrites `d`,
      every other key of `d` is kept. */
  function Update(d: Dict, other: Dict): (r: Dict)
    ensures r.Keys == d.Keys + other.Keys
    ensures forall k | k in other :: r[k] == other[k]
    ensures forall k | k in d && k !in other :: r[k] == d[k]
  {
    d + other
  }
}
