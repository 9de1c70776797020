/** Failure-carrying values used across the model: a Python value that may be
    `None`, a call that either returns or raises, and a call that returns
    nothing or raises. */
module Outcomes {

  /** A value that may be absent (Python `None`). */
  datatype Option<+T> = None | Some(value: T)

  /** A call that returns `value` or raises an exception whose text is `error`. */
  datatype Result<+T, +E> = Success(value: T) | Failure(error: E)

  /** A call that returns nothing or raises an exception whose text is `error`. */
  datatype Outcome<+E> = Pass | Fail(error: E)
}
