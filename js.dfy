/** JavaScript values as the server's handlers receive them in a request body,
    with the truthiness rules the handlers' guards (`if (!name || ...)`) and
    defaults (`medicalHistory || []`) rely on. */
module Js {

  datatype Option<+T> = None | Some(value: T)

  /** A value read from a parsed JSON body. Numbers are integers here;
      `Obj` stands for any object, which is truthy and has its own identity. */
  datatype Value =
    | Undefined
    | Null
    | Bool(b: bool)
    | Num(n: int)
    | Str(s: string)
    | Arr(items: seq<Value>)
    | Obj

  /** JavaScript truthiness: `undefined`, `null`, `false`, `0` and `""` are falsy. */
  predicate Truthy(v: Value) {
    match v
    case Undefined => false
    case Null => false
    case Bool(b) => b
    case Num(n) => n != 0
    case Str(s) => s != ""
    case Arr(_) => true
    case Obj => true
  }

  /** The value of `a || b`: `a` when it is truthy, otherwise `b`. */
  function Or(a: Value, b: Value): Value {
    if Truthy(a) then a else b
  }

  /** `a === b` for values that come from two different places: arrays and
      objects are compared by reference, so two of them are never identical. */
  predicate StrictEquals(a: Value, b: Value) {
    match a
    case Arr(_) => false
    case Obj => false
    case _ => a == b
  }

  /** `{ ...base, ...changes }` for two objects given field by field, where
      `base` may be null: the changes win, and null spreads no fields. */
  function Merge(base: Option<map<string, Value>>, changes: map<string, Value>): map<string, Value> {
    (if base.Some? then base.value else map[]) + changes
  }

  /** An HTTP reply: a status and a JSON payload, or an error status with the
      `{ error: ... }` message. */
  datatype Response<+T> =
    | Success(status: int, body: T)
    | Failure(status: int, error: string)
}
