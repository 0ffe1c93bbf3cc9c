/** Option and Result: the two failure-carrying datatypes every other module uses. */
module Wrappers {

  /** A value that may be absent (Python's `Optional[...]` / `None`). */
  datatype Option<+T> = None | Some(value: T) {
    function GetOr(default: T): T {
      match this
      case Some(v) => v
      case None => default
    }
  }

  /** The value of a computation, or the text of the exception it raised. */
  datatype Result<+T, +E> = Ok(value: T) | Err(error: E)
}
