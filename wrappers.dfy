/** Failure-carrying datatypes used for the exceptions the package throws. */
module Wrappers {

  datatype Option<+T> = None | Some(value: T) {

    /** The PHP `??` operator: the value when present, the fallback otherwise. */
    function GetOr(default: T): T {
      match this
      case Some(v) => v
      case None => default
    }
  }

  /** A value, or the exception that was thrown instead of returning it. */
  datatype Result<+T, +E> = Ok(value: T) | Err(error: E)

  /** Completion, or the exception that was thrown. */
  datatype Outcome<+E> = Pass | Fail(error: E)
}
