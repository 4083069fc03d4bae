/** JavaScript values as the request handlers and pages see them, and the
    truthiness rules their `if (!x)` guards, `x || d` defaults and
    `filter(Boolean)` calls depend on. */
module Values {

  datatype Option<+T> = None | Some(value: T)

  /** A JSON-like JavaScript value. Numbers are modelled as reals; NaN is not
      represented. Arrays and objects are always truthy. */
  datatype Value =
    | Undefined
    | Null
    | Bool(b: bool)
    | Num(n: real)
    | Str(s: string)
    | Arr(items: seq<Value>)
    | Obj(fields: map<string, Value>)

  /** A request body, a query string or a database row: named fields. */
  type Record = map<string, Value>

  /** JavaScript truthiness: `undefined`, `null`, `false`, `0` and `''` are falsy. */
  predicate Truthy(v: Value) {
    match v
    case Undefined => false
    case Null => false
    case Bool(b) => b
    case Num(n) => n != 0.0
    case Str(s) => s != ""
    case Arr(_) => true
    case Obj(_) => true
  }

  /** `r.k`: a missing field reads as `undefined`. */
  function Field(r: Record, k: string): (v: Value)
    ensures k !in r ==> v == Undefined
  {
    if k in r then r[k] else Undefined
  }

  /** `a || b`: the first operand when it is truthy, the second otherwise. */
  function Or(a: Value, b: Value): (v: Value)
    ensures Truthy(v) <==> Truthy(a) || Truthy(b)
    ensures v == a || v == b
  {
    if Truthy(a) then a else b
  }

  /** A destructuring default `{ x = d } = obj`: only `undefined` is replaced,
      `null` and `''` are kept. */
  function DefaultIfUndefined(v: Value, d: Value): (r: Value)
    ensures v != Undefined ==> r == v
    ensures r == Undefined ==> d == Undefined
  {
    if v == Undefined then d else v
  }
}
