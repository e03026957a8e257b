/**
  The JavaScript values that flow through the fetch helpers: what a promise
  resolves with, what it rejects with, and what the helpers store and hand
  back. Only the distinctions the helpers make are kept apart: `undefined`,
  the `null` placeholder of a pending cache entry, instances of `Error`, and
  ordinary data.
 */
module Js {

  /** A JavaScript value. `ErrorObject` is an instance of `Error` (it passes
      `instanceof Error`); every other constructor is a value that does not. */
  datatype Value =
    | Undefined
    | Null
    | Bool(b: bool)
    | Num(n: int)
    | Str(s: string)
    | Arr(items: seq<Value>)
    | Obj(fields: map<string, Value>)
    | ErrorObject(message: string)

  /** `v instanceof Error` */
  predicate IsError(v: Value) {
    v.ErrorObject?
  }

  /** How a promise settles: fulfilled with a value or rejected with a reason.
      A rejection reason is any value, not necessarily an `Error`. */
  datatype Outcome = Ok(value: Value) | Err(error: Value)

  /** The message of the error the mock fetch rejects with. */
  const RequestTimedOut: string := "Request timed out"
}
