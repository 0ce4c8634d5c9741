/** Failure-carrying values: Python's `None`, a raised exception, an error return. */
module Wrappers {

  /** A value that may be absent, as a nullable column or a missing form field is. */
  datatype Option<+T> = None | Some(value: T)

  /** A computation that returns a value or raises an error carrying a message. */
  datatype Result<+T, +E> = Success(value: T) | Failure(error: E)

  /** A computation run for its effect that either completes or raises. */
  datatype Outcome<+E> = Pass | Fail(error: E)
}
