/** Option and Result: an absent value, and a value or an error. */
module Wrappers {

  /** A value that may be absent (Python's `Optional[T]`). */
  datatype Option<T> = None | Some(value: T) {

    /** The wrapped value, or `default` when absent (Python's `x or default` on an optional). */
    function GetOr(default: T): T {
      match this
      case Some(v) => v
      case None => default
    }
  }

  /** Either a value or an error (an operation that may raise). */
  datatype Result<T, E> = Success(value: T) | Failure(error: E)
}
