/** An optional value and a value-or-error. */
module Wrappers {

  /** A value that may be absent (a pandas NaN cell, a missing onset). */
  datatype Option<+T> = None | Some(value: T)

  /** A value or the error the source would raise instead of returning it. */
  datatype Result<+R, +E> = Success(value: R) | Failure(error: E)
}
