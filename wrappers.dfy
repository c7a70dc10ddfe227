/** Failure-carrying result types shared by the model's modules. */
module Wrappers {

  /** A value that may be missing: Python's `None` or a missing row. */
  datatype Option<+T> = None | Some(value: T)

  /** A value or the exception the source raises instead of returning it. */
  datatype Result<+R, +E> = Success(value: R) | Failure(error: E)

  /** The outcome of a step that returns nothing but may raise. */
  datatype Outcome<+E> = Pass | Fail(error: E)
}
