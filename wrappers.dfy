/** Option and Result, and the truthiness JavaScript gives a stored text. */
module Wrappers {

  /** A value that may be null or undefined in the source. */
  datatype Option<+T> = None | Some(value: T) {

    /** `x || d` for an x that is either absent or a value whose own
        falsy case coincides with d (0 for numbers). */
    function GetOr(default: T): T {
      match this
      case Some(v) => v
      case None => default
    }
  }

  /** The value of an awaited promise: resolved, or rejected with an error. */
  datatype Result<+T, +E> = Success(value: T) | Failure(error: E)

  /** A text read back from localStorage is truthy when it is present
      (getItem gives null for a missing key) and not the empty string. */
  predicate Truthy(v: Option<string>) {
    v.Some? && v.value != ""
  }
}
