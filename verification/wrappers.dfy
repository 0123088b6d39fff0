/** Failure-carrying values shared by the front end and the back end. */
module Wrappers {

  /** A value that may be absent: JavaScript's `null` and Java's `null` / `Optional.empty()`. */
  datatype Option<+T> = None | Some(value: T)

  /** The outcome of a Java method that returns a value or throws. */
  datatype Result<+T, +E> = Success(value: T) | Failure(error: E)

  /** The outcome of a `void` Java method that may throw. */
  datatype Outcome<+E> = Pass | Fail(error: E)
}
