/** Option and Result, the model's stand-ins for Java's null and for a thrown exception. */
module Wrappers {

  datatype Option<+T> = None | Some(value: T) {
    function GetOr(default: T): T {
      match this
      case Some(v) => v
      case None => default
    }
  }

  datatype Result<+T, +E> = Success(value: T) | Failure(error: E)

  /** An operation that returns nothing but may throw. */
  datatype Outcome<+E> = Pass | Fail(error: E)
}
