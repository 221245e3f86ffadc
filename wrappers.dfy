/** Failure-carrying results used wherever the Python code raises an exception. */
module Wrappers {

  datatype Option<+T> = None | Some(value: T)

  /** A call that returns a value or raises. */
  datatype Result<+R, +E> = Success(value: R) | Failure(error: E)

  /** A call that returns nothing or raises. */
  datatype Outcome<+E> = Pass | Fail(error: E)
}
