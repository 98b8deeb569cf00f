/** Option and Outcome values shared by the modules of this project. */
module Wrappers {

  /** An optional value: Java's `Optional<T>` or a nullable reference. */
  datatype Option<+T> = None | Some(value: T)

  /** A value, or the error that prevented computing it. */
  datatype Result<+T, +E> = Success(value: T) | Failure(error: E)

  /** The outcome of an operation that either completes or aborts with an error (a thrown exception). */
  datatype Outcome<+E> = Pass | Fail(error: E)
}
