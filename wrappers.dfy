/** Failure-carrying results used across the model. */
module Wrappers {

  datatype Option<+T> = None | Some(value: T)

  datatype Result<+R, +E> = Success(value: R) | Failure(error: E)

  /** The outcome of a step that either succeeds or raises an error. */
  datatype Outcome<+E> = Pass | Fail(error: E)
}
