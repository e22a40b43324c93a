/** Absent values and error returns shared by the other modules. */
module Wrappers {

  /** A value that may be missing: Python's `None` or a `dict.get` miss. */
  datatype Option<+T> = None | Some(value: T) {

    /** The wrapped value, or `default` when there is none (`dict.get(key, default)`). */
    function GetOr(default: T): T {
      match this
      case Some(v) => v
      case None => default
    }
  }

  /** The outcome of an operation that can raise: a value or the exception it raises. */
  datatype Result<+R, +E> = Success(value: R) | Failure(error: E)
}
