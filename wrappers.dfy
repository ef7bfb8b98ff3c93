/** Failure-carrying values shared by every module of the model. */
module Wrappers {

  /** Swift's `Optional`. */
  datatype Option<+T> = None | Some(value: T) {
    function GetOr(default: T): T {
      match this
      case Some(v) => v
      case None => default
    }
  }

  /** A value or a thrown error. */
  datatype Result<+T, +E> = Ok(value: T) | Err(error: E)

  /**
   * What an awaited service call (sign-up, login, saving preferences) came back with.
   * The model never runs the service: each call site receives this outcome as an input.
   */
  datatype Outcome = Succeeded | Failed(description: string)
}
