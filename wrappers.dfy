/** Failure-compatible result types shared by the services. */
module Wrappers {

  datatype Option<+T> = None | Some(value: T)

  /** The value of an operation that may throw, with the error it threw. */
  datatype Result<+T, +E> = Success(value: T) | Failure(error: E)

  /** The outcome of an operation that returns nothing or throws. */
  datatype Outcome<+E> = Pass | Fail(error: E)
}
