/** Failure-carrying results used by the price model. */
module Wrappers {

  /** A value that may be absent, as an optional form field is. */
  datatype Option<+T> = None | Some(value: T)

  /** The outcome of an operation that can fail with an error of type E. */
  datatype Result<+T, +E> = Success(value: T) | Failure(error: E)
}
