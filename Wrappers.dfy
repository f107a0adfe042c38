/** Null, success and failure as values: Java's null references and thrown exceptions. */
module Wrappers {

  /** A reference that may be null: `None` stands for Java's `null`. */
  datatype Option<+T> = None | Some(value: T)

  /** The outcome of a Java call that returns a value or throws. */
  datatype Result<+T, +E> = Success(value: T) | Failure(error: E)

  /** The outcome of a Java `void` call that returns normally or throws. */
  datatype Outcome<+E> = Pass | Fail(error: E)
}
