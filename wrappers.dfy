/** Option and Result values, the model's stand-ins for Python's `None` and for
    an operation that either returns a value or raises an exception. */
module Wrappers {

  datatype Option<+T> = None | Some(value: T) {
    function GetOr(default: T): T {
      match this
      case Some(v) => v
      case None => default
    }
  }

  /** `Failure(message)` stands for an exception raised with that message. */
  datatype Result<+T> = Success(value: T) | Failure(error: string)

  /** Pass, or an exception raised with the given message (a check that returns nothing). */
  datatype Outcome = Pass | Fail(error: string)
}
