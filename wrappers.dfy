/** Failure-carrying values shared by the modules of this model. */
module Wrappers {

  /** A value that may be absent (Python's `Optional`, `None`). */
  datatype Option<+T> = None | Some(value: T)

  /** The outcome of a step that either returns a value or raises an exception
      whose `str(e)` is `error`. */
  datatype Result<+R, +E> = Success(value: R) | Failure(error: E)
}
