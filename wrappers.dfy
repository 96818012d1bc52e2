/** Result and outcome values that stand for the exceptions the library throws. */
module Wrappers {

  /** A value, or the exception that was thrown instead of returning one. */
  datatype Result<+T, +E> = Success(value: T) | Failure(error: E)

  /** Normal completion of a void operation, or the exception it threw. */
  datatype Outcome<+E> = Pass | Fail(error: E)
}
