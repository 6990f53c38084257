/**
 JSON values as `json.loads` returns them, and Python's view of them.  `NonFinite` is a
 number that Python reads as an infinity, like `1e400`, or as not a number.
 */
module Json {
  datatype Json =
    | Null
    | Bool(b: bool)
    | Num(n: int)
    | Float(r: real)
    | NonFinite
    | Str(s: string)
    | Arr(items: seq<Json>)
    | Obj(fields: map<string, Json>)

  type Object = map<string, Json>

  /** `d.get(k)` */
  function Get(d: Object, k: string): Json { if k in d then d[k] else Null }

  /** `bool(j)` */
  predicate Truthy(j: Json) {
    match j
    case Null => false
    case Bool(b) => b
    case Num(n) => n != 0
    case Float(r) => r != 0.0
    case NonFinite => true
    case Str(s) => s != ""
    case Arr(items) => items != []
    case Obj(fields) => fields != map[]
  }

  /** `a or b` */
  function Or(a: Json, b: Json): Json { if Truthy(a) then a else b }

  /** `isinstance(j, int)`: in Python a bool is an int too. */
  predicate IsInt(j: Json) { j.Num? || j.Bool? }

  function AsInt(j: Json): int
    requires IsInt(j)
  {
    if j.Num? then j.n else if j.b then 1 else 0
  }
}
