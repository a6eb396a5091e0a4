/**
 * JSON values exchanged between the client and the server, and the two
 * languages' notions of a "truthy" value: the client tests fields with
 * JavaScript's `!x` / `x || y`, the server with Python's `not x` / `if x:`.
 */
module Json {

  /** A JSON value; numbers are integers (floating point is not modelled). */
  datatype Value =
    | Null
    | Bool(b: bool)
    | Number(n: int)
    | Str(s: string)
    | Array(items: seq<Value>)
    | Object(fields: map<string, Value>)

  /** JavaScript truthiness: empty arrays and objects are truthy. */
  predicate JsTruthy(v: Value)
  {
    match v
    case Null => false
    case Bool(b) => b
    case Number(n) => n != 0
    case Str(s) => s != ""
    case Array(_) => true
    case Object(_) => true
  }

  /** Python truthiness: empty lists and dicts are falsy. */
  predicate PyTruthy(v: Value)
  {
    match v
    case Null => false
    case Bool(b) => b
    case Number(n) => n != 0
    case Str(s) => s != ""
    case Array(items) => items != []
    case Object(fields) => fields != map[]
  }

  /** `data.get(key)` in Python and `obj.key` in JavaScript: a missing key reads as null. */
  function Get(m: map<string, Value>, key: string): (v: Value)
    ensures key !in m ==> v == Null
    ensures key in m ==> v == m[key]
  {
    if key in m then m[key] else Null
  }

  /** `value[key]` of a JSON object, null when absent or when the value is not an object. */
  function Member(v: Value, key: string): (r: Value)
    ensures v.Object? && key in v.fields ==> r == v.fields[key]
    ensures !v.Object? || key !in v.fields ==> r == Null
  {
    if v.Object? && key in v.fields then v.fields[key] else Null
  }
}

/** Toast notifications raised by the client pages. */
module Ui {

  datatype ToastKind = Info | Success | Error

  datatype Toast = Toast(kind: ToastKind, text: string)
}
