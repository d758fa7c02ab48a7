/** Optional values and results with an error, as used throughout the model. */
module Wrappers {

  /** A value that may be absent (JavaScript `undefined`). */
  datatype Option<+T> = None | Some(value: T)

  /** The outcome of an operation that may throw or reject with an error. */
  datatype Result<+R, +E> = Success(value: R) | Failure(error: E)
}
