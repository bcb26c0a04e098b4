/** Option, Result and Outcome values for absent fields and for error paths. */
module Wrappers {

  datatype Option<+T> = None | Some(value: T)

  /** A value, or the error that a JavaScript statement would have thrown instead. */
  datatype Result<+T, +E> = Success(value: T) | Failure(error: E)

  /** The result of an operation that either succeeds or reports an error. */
  datatype Outcome<+E> = Pass | Fail(error: E)
}
