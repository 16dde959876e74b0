/** Failure-compatible result types shared by the whole model. */
module Wrappers {

  /** A value that may be absent (`undefined` / `null` in the source). */
  datatype Option<+T> = None | Some(value: T) {
    function GetOr(default: T): T {
      match this
      case Some(v) => v
      case None => default
    }
  }

  /** The outcome of an operation that yields a value or a user-facing error message. */
  datatype Result<+T> = Success(value: T) | Failure(error: string)

  /** The outcome of a validation step: it passes, or fails with a user-facing message. */
  datatype Outcome = Pass | Fail(error: string)
}
