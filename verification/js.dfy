/**
  * JavaScript values as the gateway and the pages handle them, and the
  * truthiness rules behind `!x`, `x || y` and `x ?? y`. Numbers are integers
  * (amounts are whole rupiah); NaN and fractions are not modelled.
  */
module Js {

  datatype Value =
    | Undefined
    | Null
    | Bool(b: bool)
    | Num(n: int)
    | Str(s: string)
    | Arr(items: seq<Value>)
    | Obj(fields: map<string, Value>)

  /** `!!v`: the six falsy values of JavaScript that have an integer model. */
  predicate Truthy(v: Value) {
    match v
    case Undefined => false
    case Null => false
    case Bool(b) => b
    case Num(n) => n != 0
    case Str(s) => s != ""
    case Arr(_) => true
    case Obj(_) => true
  }

  /** The values `??` replaces. */
  predicate Nullish(v: Value) {
    v.Undefined? || v.Null?
  }

  /** `a || b` */
  function Or(a: Value, b: Value): Value {
    if Truthy(a) then a else b
  }

  /** `a ?? b` */
  function Coalesce(a: Value, b: Value): Value {
    if Nullish(a) then b else a
  }

  /**
    * `o.key` on a parsed JSON value that is not null or undefined: a missing
    * key, or a value that is not an object, gives undefined. On null or
    * undefined JavaScript throws a TypeError; callers test `Nullish` first.
    */
  function Get(o: Value, key: string): Value {
    if o.Obj? && key in o.fields then o.fields[key] else Undefined
  }

  /** `m[key]` on a request's query or body object. */
  function Param(m: map<string, Value>, key: string): Value {
    if key in m then m[key] else Undefined
  }

  /** An HTTP response: status code and JSON body. */
  datatype Response = Response(status: int, body: Value)

  /** The body `{ error: message }` of every error the gateway produces itself. */
  function ErrorBody(message: string): Value {
    Obj(map["error" := Str(message)])
  }
}
