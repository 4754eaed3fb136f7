/** Failure-compatible result types shared by the other modules. */
module Wrappers {

  /** A value that may be absent; stands in for a Java reference that may be null. */
  datatype Option<+T> = None | Some(value: T)

  /** The outcome of a Java call that either returns a value or throws. */
  datatype Result<+T, +E> = Success(value: T) | Failure(error: E)
}
