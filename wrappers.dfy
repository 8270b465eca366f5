/** Failure-compatible wrappers standing in for Java's null references and thrown exceptions. */
module Wrappers {

  /** A possibly-null reference: `None` plays the part of Java's `null`. */
  datatype Option<+T> = None | Some(value: T)

  /** The outcome of a call that either returns a value or throws an exception. */
  datatype Result<+T, +E> = Success(value: T) | Failure(error: E)

  /** The outcome of a `void` call that either returns normally or throws an exception. */
  datatype Outcome<+E> = Pass | Fail(error: E)
}
