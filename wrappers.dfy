/** Option and Result: the absent values and caught exceptions of the chat front end. */
module Wrappers {

  /** A value that may be missing: an unset environment variable, an absent JSON key. */
  datatype Option<+T> = None | Some(value: T) {

    /** The value, or `default` when absent (Python's `d.get(key, default)`). */
    function GetOr(default: T): T {
      match this
      case Some(v) => v
      case None => default
    }
  }

  /** The outcome of a step that may raise: either a value or the error it raised. */
  datatype Result<+T, +E> = Ok(value: T) | Err(error: E)
}
