/** Failure-compatible wrappers: the model's stand-ins for Kotlin's nullable values and exceptions. */
module Wrappers {

  /** A value that may be absent (a Kotlin `T?` or a `java.util.Optional<T>`). */
  datatype Option<+T> = None | Some(value: T)

  /** A computation that returns a value or throws an error. */
  datatype Result<+T, +E> = Success(value: T) | Failure(error: E)

  /** A computation without a value that returns normally (`Pass`) or throws (`Fail`). */
  datatype Outcome<+E> = Pass | Fail(error: E)
}
