/** Option and Result: the shapes of an optional field and of a computation that may throw. */
module Wrappers {

  /** A value that may be absent (`undefined` in the source). */
  datatype Option<+T> = None | Some(value: T)

  /** The outcome of a computation that either returns a value or throws an error of kind `E`. */
  datatype Result<+R, +E> = Success(value: R) | Failure(error: E)
}
