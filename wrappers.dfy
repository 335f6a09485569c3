/** Plain wrappers for a Java reference that may be null and for a call that may throw. */
module Wrappers {

  /** A value that may be absent, standing for a Java reference that may be null. */
  datatype Option<+T> = None | Some(value: T)

  /** The outcome of an operation that either yields a value or throws. */
  datatype Result<+T, +E> = Success(value: T) | Failure(error: E)
}
