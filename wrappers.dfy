/** Optional values and results with an error, used across the model. */
module Wrappers {

  /** `undefined` (None) or a present value. */
  datatype Option<+T> = None | Some(value: T)

  /** A value, or the message of the error that was thrown instead. */
  datatype Result<+T, +E> = Success(value: T) | Failure(error: E)
}
