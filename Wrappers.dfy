/** Failure-compatible wrappers used to model Java's nulls and exceptions as values. */
module Wrappers {

  /** A possibly-absent value: `None` models a Java `null`. */
  datatype Option<+T> = None | Some(value: T)

  /** The value of a computation that either returns normally or throws. */
  datatype Result<+R, +E> = Success(value: R) | Failure(error: E)

  /** The outcome of a `void` Java method that may throw. */
  datatype Outcome<+E> = Pass | Fail(error: E)
}
