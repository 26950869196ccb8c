/** Failure-carrying values used wherever the game code throws. */
module Outcomes {

  datatype Option<+T> = None | Some(value: T) {
    /** The value when present, `default` otherwise (the `??` operator). */
    function GetOr(default: T): T {
      match this
      case Some(v) => v
      case None => default
    }
  }

  /** The outcome of an operation that either returns a value or throws. */
  datatype Result<+T, +E> = Ok(value: T) | Err(error: E)

  /** The outcome of an operation that returns nothing or throws. */
  datatype Outcome<+E> = Pass | Fail(error: E)
}
