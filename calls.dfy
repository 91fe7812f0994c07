/**
 * What the handlers see of the collaborators they await: a call either returns a value
 * or throws. A thrown value is an `Error` with its message, or anything else (whose
 * `String(...)` form is kept, since two routes print it).
 */
module Calls {
  import opened Wrappers

  datatype Thrown = ErrorObject(message: string) | OtherValue(asString: string)

  /** The outcome of one awaited call. */
  datatype Outcome<+T> = Done(value: T) | Threw(thrown: Thrown)

  /** `error instanceof Error ? error.message : fallback`. */
  function MessageOr(e: Thrown, fallback: string): (m: string)
    ensures e.ErrorObject? ==> m == e.message
    ensures e.OtherValue? ==> m == fallback
  {
    match e
    case ErrorObject(message) => message
    case OtherValue(_) => fallback
  }

  /** `error instanceof Error ? error.message : String(error)`. */
  function MessageOrString(e: Thrown): (m: string)
    ensures e.ErrorObject? ==> m == e.message
    ensures e.OtherValue? ==> m == e.asString
  {
    match e
    case ErrorObject(message) => message
    case OtherValue(s) => s
  }

  /** A JS number that may be missing: truthy when present and not zero. */
  predicate Truthy(n: Option<int>) {
    n.Some? && n.value != 0
  }
}
