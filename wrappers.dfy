/** Optional values and results with an error, used across the model. */
module Wrappers {

  /** A value that may be absent (PHP `null`). */
  datatype Option<+T> = None | Some(value: T)

  /** The outcome of an operation that may fail with an error message. */
  datatype Result<+T, +E> = Success(value: T) | Failure(error: E)
}
