/** Failure-carrying values shared by the adapters: Python's `None`, returned
    values and raised exceptions. */
module Wrappers {

  /** A Python value that may be `None`. */
  datatype Option<+T> = None | Some(value: T) {
    function GetOr(default: T): T {
      match this
      case Some(v) => v
      case None => default
    }
  }

  /** A call that either returns a value or raises an exception. */
  datatype Result<+T, +E> = Ok(value: T) | Err(error: E)

  /** A call that returns nothing or raises an exception. */
  datatype Outcome<+E> = Pass | Fail(error: E)
}
