/** Option and Result, used across the model. */
module Wrappers {

  /** A value that may be absent: Python's `None` versus a present value. */
  datatype Option<+T> = None | Some(value: T)

  /** Either a value or the error that the Python implementation would raise instead. */
  datatype Result<+T, +E> = Success(value: T) | Failure(error: E)
}
