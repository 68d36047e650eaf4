/** Failure-carrying values shared by the modules of this model. */
module Outcomes {

  /** Python's `None` or a present value. */
  datatype Option<+T> = None | Some(value: T)

  /** A value, or the exception the source raises instead of returning one. */
  datatype Result<+T, +E> = Success(value: T) | Failure(error: E)

  /** A function that returns nothing, or the exception it raises. */
  datatype Outcome<+E> = Pass | Fail(error: E)
}
