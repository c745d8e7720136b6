/** Failure-compatible wrappers standing in for Java's null returns and thrown exceptions. */
module Wrappers {

  /** A value that may be absent; `None` plays the part of a Java `null` result. */
  datatype Option<+T> = None | Some(value: T)

  /** The outcome of an operation that either produces a value or throws. */
  datatype Result<+T, +E> = Success(value: T) | Failure(error: E)
}
