/**
  The request body as the handler sees it after `request.get_json()`:
  a decoded JSON value. `Null` stands for Python's `None`, the value of a
  JSON `null` body.
 */
module Json {

  datatype Value =
    | Null
    | Bool(b: bool)
    | Number(n: real)
    | Str(s: string)
    | Array(items: seq<Value>)
    | Object(fields: map<string, Value>)

  /**
    Python's truth value of a decoded JSON value, as used by `not x`: the
    falsy values are exactly `None`, `False`, zero, `""`, `[]` and `{}`.
   */
  predicate Truthy(v: Value)
    ensures !Truthy(v) <==> || v == Null || v == Bool(false) || v == Number(0.0)
                            || v == Str("") || v == Array([]) || v == Object(map[])
  {
    match v
    case Null => false
    case Bool(b) => b
    case Number(n) => n != 0.0
    case Str(s) => s != ""
    case Array(items) => items != []
    case Object(fields) => fields != map[]
  }

  /**
    `dict.get(key)`: a key that is absent reads as `None`, so an absent key
    and a key holding `null` cannot be told apart.
   */
  function Get(fields: map<string, Value>, key: string): (r: Value)
    ensures r == Null <==> key !in fields || fields[key] == Null
    ensures r != Null ==> key in fields && fields[key] == r
  {
    if key in fields then fields[key] else Null
  }
}
