/** Option and Result, the two failure-carrying wrappers the model uses. */
module Wrappers {

  /** A value that may be missing (Python's None). */
  datatype Option<+T> = None | Some(value: T)

  /** A value or the exception that was raised instead of it. */
  datatype Result<+T, +E> = Ok(value: T) | Err(error: E)
}
