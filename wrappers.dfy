/** Option and Result datatypes used throughout the model. */
module Wrappers {

  /** A value that may be absent (Python's `None`). */
  datatype Option<+T> = None | Some(value: T)

  /** Either a successful value or an HTTP-style error code. */
  datatype Result<+T> = Success(value: T) | Failure(code: int)
}
