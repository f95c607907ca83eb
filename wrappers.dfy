/** Failure-carrying values used across the model: a missing value, a result
    that may be an error, and an outcome that only says whether an error occurred. */
module Wrappers {

  datatype Option<+T> = None | Some(value: T) {
    function GetOr(default: T): T {
      match this
      case Some(v) => v
      case None => default
    }
  }

  datatype Result<+T, +E> = Success(value: T) | Failure(error: E) {
    function ToOption(): Option<T> {
      match this
      case Success(v) => Some(v)
      case Failure(_) => None
    }
  }

  datatype Outcome<+E> = Pass | Fail(error: E)
}
