/** The two failure-carrying shapes the rest of the model uses. */
module Wrappers {

  /** A value that may be absent: JavaScript's `T | undefined` or `T | null`. */
  datatype Option<+T> = None | Some(value: T)

  /** Either a value or an early answer, e.g. a validation error response. */
  datatype Result<+R, +E> = Success(value: R) | Failure(error: E)
}
