/** Failure-carrying result types used in place of the service's HTTP error responses. */
module Wrappers {

  datatype Option<+T> = None | Some(value: T)

  /** The outcome of an operation that returns a value or fails. */
  datatype Result<+R, +E> = Success(value: R) | Failure(error: E)

  /** The outcome of an operation that returns nothing or fails. */
  datatype Outcome<+E> = Pass | Fail(error: E)
}
