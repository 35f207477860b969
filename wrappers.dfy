/** Failure-carrying values used in place of Python's `None` and exceptions. */
module Wrappers {

  /** An optional value: an environment variable that may be unset, a message not yet rendered. */
  datatype Option<+T> = None | Some(value: T)

  /** The value a Python call returns, or the exception it raises. */
  datatype Result<+T, +E> = Ok(value: T) | Err(error: E)

  /** A Python call that returns nothing useful: it passes, or it raises. */
  datatype Outcome<+E> = Pass | Fail(error: E)
}
