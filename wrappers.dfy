/** Optional values and error returns, standing for JavaScript's `null`
    and for thrown exceptions. */
module Wrappers {

  datatype Option<+T> = None | Some(value: T) {
    /** The value, or `default` when absent (JavaScript's `x || default`
        for a value that cannot be falsy). */
    function GetOr(default: T): T {
      match this
      case Some(v) => v
      case None => default
    }
  }

  /** A value-returning operation that either succeeds or throws. */
  datatype Result<+R, +E> = Success(value: R) | Failure(error: E)

  /** An operation that returns nothing and either completes or throws. */
  datatype Outcome<+E> = Pass | Fail(error: E)
}
