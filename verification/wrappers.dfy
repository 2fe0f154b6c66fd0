/** Option and Result, for values that may be missing and calls that may fail. */
module Wrappers {

  datatype Option<+T> = None | Some(value: T) {
    /** The value, or `default` when there is none (JavaScript's `x || default` on objects). */
    function GetOr(default: T): T {
      match this
      case Some(v) => v
      case None => default
    }
  }

  /** The outcome of a call into a collaborator that may fail. */
  datatype Result<+T, +E> = Ok(value: T) | Err(error: E)
}
