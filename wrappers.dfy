/** Failure-compatible result types used in place of the C++ exceptions. */
module Wrappers {

  datatype Option<+T> = None | Some(value: T)

  /** `Failure` plays the role of a thrown exception carrying `error`. */
  datatype Result<+T, +E> = Success(value: T) | Failure(error: E)

  /** The result of an operation that returns nothing (`void`) or throws. */
  datatype Outcome<+E> = Pass | Fail(error: E)
}
