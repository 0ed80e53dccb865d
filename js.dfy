/** JavaScript values as the server and the store see them after `JSON.parse`. */
module Js {

  datatype Option<+T> = None | Some(value: T)

  /** A scalar JavaScript value. Numbers are modelled as integers: the fields this
      system reads are train numbers, dates, indices and counts. */
  datatype Value = Undefined | Null | Bool(b: bool) | Num(n: int) | Str(s: string)

  /** JavaScript truthiness: `undefined`, `null`, `false`, `0` and `""` are falsy. */
  predicate Truthy(v: Value)
  {
    match v
    case Undefined => false
    case Null => false
    case Bool(b) => b
    case Num(n) => n != 0
    case Str(s) => s != ""
  }

  /** The expression `a || b`. */
  function Or(a: Value, b: Value): (r: Value)
    ensures Truthy(a) ==> r == a
    ensures !Truthy(a) ==> r == b
    ensures Truthy(a) || Truthy(b) ==> Truthy(r)
  {
    if Truthy(a) then a else b
  }

  /** What `JSON.parse(text)` gives for a function call's argument text: either it
      throws, or it yields an object whose fields are read by name. */
  datatype Arguments = Malformed | Object(fields: map<string, Value>)

  /** Reading `obj.key`: a missing key reads as `undefined`. */
  function Field(fields: map<string, Value>, key: string): (v: Value)
    ensures key !in fields ==> v == Undefined
    ensures key in fields ==> v == fields[key]
  {
    if key in fields then fields[key] else Undefined
  }
}
