/** Failure-carrying return values, standing in for the exceptions the client raises. */
module Wrappers {

  /** A value, or the error that the source would raise instead of returning it. */
  datatype Result<+T, +E> = Success(value: T) | Failure(error: E)

  /** Completion of an operation that returns nothing, or the error it raises. */
  datatype Outcome<+E> = Pass | Fail(error: E)
}
