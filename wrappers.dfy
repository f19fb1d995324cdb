/** Option and Result, the failure-carrying values used across the model. */
module Wrappers {

  /** A value that may be missing (Python's `None`). */
  datatype Option<+T> = None | Some(value: T)

  /** A value or the error that was raised instead. */
  datatype Result<+T, +E> = Success(value: T) | Failure(error: E)
}
