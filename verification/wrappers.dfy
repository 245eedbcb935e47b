/** Optional values and results with an error message, used wherever the client reads a field
    that may be missing or calls something that may throw. */
module Wrappers {

  datatype Option<+T> = None | Some(value: T) {
    /** The value, or `default` when missing (JavaScript's `x ?? d` on a missing field). */
    function GetOr(default: T): T {
      match this
      case Some(v) => v
      case None => default
    }
  }

  /** The outcome of a call that either returns a value or throws an Error with a message. */
  datatype Result<+T> = Success(value: T) | Failure(error: string)
}
