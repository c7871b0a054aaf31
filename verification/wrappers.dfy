/** Failure-carrying datatypes used by every endpoint of the model. */
module Wrappers {

  /** A value that may be absent: a nullable column, a `.first()` that found nothing. */
  datatype Option<+T> = None | Some(value: T) {

    /** The value, or `default` when absent (Python's `x or default` on a nullable field). */
    function GetOr(default: T): T {
      match this
      case Some(v) => v
      case None => default
    }
  }

  /** The outcome of an endpoint: a value, or the error response it returns instead. */
  datatype Result<+T, +E> = Success(value: T) | Failure(error: E)
}
