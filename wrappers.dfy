/** Failure-carrying results used across the model in place of the source's exceptions and nullable values. */
module Wrappers {

  /** A value that may be absent (a Kotlin nullable `T?`). */
  datatype Option<+T> = None | Some(value: T)

  /** Either a value or the error the source would have thrown. */
  datatype Result<+R, +E> = Success(value: R) | Failure(error: E)

  /** Completion of a callback that returns nothing, or the error it threw. */
  datatype Outcome<+E> = Pass | Fail(error: E)
}
