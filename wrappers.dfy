/** Failure-carrying values used where the source returns None or throws. */
module Wrappers {

  datatype Option<+T> = None | Some(value: T) {
    function GetOr(default: T): T {
      match this
      case Some(v) => v
      case None => default
    }
  }

  /** A settled call: either its value or the error it was rejected with. */
  datatype Result<+T, +E> = Success(value: T) | Failure(error: E)

  /** A settled call that carries no value. */
  datatype Outcome<+E> = Pass | Fail(error: E)
}
