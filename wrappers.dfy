/** Option and Result: an absent value, and the outcome of an operation that can fail. */
module Wrappers {

  /** A value that may be absent: JavaScript's `null` / `undefined`. */
  datatype Option<+T> = None | Some(value: T) {
    function GetOr(default: T): T {
      match this
      case Some(v) => v
      case None => default
    }
  }

  /** The outcome of an operation that can throw or reject. */
  datatype Result<+T, +E> = Ok(value: T) | Err(error: E)
}
