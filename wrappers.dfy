/** Failure-carrying results used where the C++ code throws or reads out of bounds. */
module Wrappers {

  datatype Option<+T> = None | Some(value: T)

  datatype Result<+R, +E> = Success(value: R) | Failure(error: E)

  /** Like Result, but the success case carries no value. */
  datatype Outcome<+E> = Pass | Fail(error: E)
}
