/** Values shared by the classifier, the serial link manager and the detection endpoint. */
module Common {

  datatype Option<+T> = None | Some(value: T)

  /** A decoded JSON value: what the HTTP body and the serial link carry. */
  datatype Value =
    | Null
    | Bool(b: bool)
    | Int(i: int)
    | Num(r: real)
    | Str(s: string)
    | List(items: seq<Value>)
    | Object(fields: map<string, Value>)

  /** Python truthiness, as used by `x or y` and `all([...])`: only null, false, zero and the empty containers are falsy. */
  predicate Truthy(v: Value)
    ensures !Truthy(v) <==>
      v == Null || v == Bool(false) || v == Int(0) || v == Num(0.0)
      || v == Str("") || v == List([]) || v == Object(map[])
  {
    match v
    case Null => false
    case Bool(b) => b
    case Int(i) => i != 0
    case Num(r) => r != 0.0
    case Str(s) => s != ""
    case List(items) => items != []
    case Object(fields) => fields != map[]
  }

  /** Python's `a or b`: the first operand when it is truthy, else the second. */
  function Or(a: Value, b: Value): (r: Value)
    ensures Truthy(a) ==> r == a
    ensures !Truthy(a) ==> r == b
  {
    if Truthy(a) then a else b
  }

  /** Python's `d.get(k, default)` on a decoded JSON object. */
  function GetOr(d: map<string, Value>, k: string, default: Value): (r: Value)
    ensures k in d ==> r == d[k]
    ensures k !in d ==> r == default
  {
    if k in d then d[k] else default
  }

  /** Python's `d.get(k)`, which yields `None` for a missing key. */
  function Get(d: map<string, Value>, k: string): Value {
    GetOr(d, k, Null)
  }

  function Min(a: int, b: int): int {
    if a <= b then a else b
  }
}
