/**
  The JavaScript values the route handlers see after `req.json()`, the
  ECMAScript truthiness test the handlers apply to them, and the values a
  `catch` block can receive.
 */
module Js {

  /** A value produced by `JSON.parse`, plus `undefined` for a missing property. */
  datatype JsValue =
    | Undefined
    | Null
    | Bool(b: bool)
    | Number(n: real)
    | Str(s: string)
    | Array(items: seq<JsValue>)
    | Object(members: seq<(string, JsValue)>)

  /** ECMAScript ToBoolean. JSON never yields NaN, so a number is falsy exactly when it is zero. */
  predicate Truthy(v: JsValue)
    ensures v.Undefined? || v.Null? ==> !Truthy(v)
    ensures v.Str? ==> (Truthy(v) <==> v.s != "")
    ensures v.Bool? ==> (Truthy(v) <==> v.b)
    ensures v.Number? ==> (Truthy(v) <==> v.n != 0.0)
    ensures v.Array? || v.Object? ==> Truthy(v)
  {
    match v
    case Undefined => false
    case Null => false
    case Bool(b) => b
    case Number(n) => n != 0.0
    case Str(s) => s != ""
    case Array(_) => true
    case Object(_) => true
  }

  /** A thrown value: an `Error` instance carrying its message, or anything else. */
  datatype Thrown = ErrorObject(message: string) | OtherValue

  /** The outcome of an awaited call that may throw. */
  datatype Attempt<+T> = Returned(value: T) | Threw(thrown: Thrown)

  /** The message rule shared by every `catch` block: `e instanceof Error ? e.message : fallback`. */
  function CaughtMessage(e: Thrown, fallback: string): (m: string)
    ensures e.ErrorObject? ==> m == e.message
    ensures e.OtherValue? ==> m == fallback
    ensures m == fallback || m == e.message
  {
    match e
    case ErrorObject(message) => message
    case OtherValue => fallback
  }

  /** HTTP status codes for which the Fetch API's `Response.ok` is false. */
  type ErrorStatus = s: int | !(200 <= s < 300) witness 500
}
