/** Option and Result, used for JavaScript's nullable values and for thrown errors. */
module Wrappers {

  datatype Option<+T> = None | Some(value: T)

  /** The outcome of a call that may throw: `Failure` carries what was thrown. */
  datatype Result<+T, +E> = Success(value: T) | Failure(error: E)
}
