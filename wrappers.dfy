/** Option and Result, used for the source's null pointers and exceptions. */
module Wrappers {

  datatype Option<+T> = None | Some(value: T)

  /** Success, or the exception the source would throw. */
  datatype Result<+R, +E> = Success(value: R) | Failure(error: E)

  /** An operation that completes or throws, with no value. */
  datatype Outcome<+E> = Pass | Fail(error: E)
}
