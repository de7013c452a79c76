/** Optional values, results and outcomes: the model's stand-ins for JavaScript's
    `undefined`, for values that may be an error, and for operations that may throw. */
module Wrappers {

  datatype Option<+T> = None | Some(value: T) {
    function GetOr(default: T): T {
      match this
      case Some(v) => v
      case None => default
    }
  }

  /** A value or an error message. */
  datatype Result<+T> = Success(value: T) | Failure(error: string)

  /** An operation that returns normally or throws an error with a message. */
  datatype Outcome = Pass | Fail(error: string)
}
