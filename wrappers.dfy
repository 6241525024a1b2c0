/** Option and Result, the shapes of JavaScript's `undefined`-or-value and throw-or-value. */
module Wrappers {

  /** A value that may be missing (`undefined` / `null` in the source). */
  datatype Option<+T> = None | Some(value: T)

  /** A value or the error a thrown `Error` carries. */
  datatype Result<+T, +E> = Success(value: T) | Failure(error: E)
}
