/** The model's stand-ins for Python's `None` and for a raised exception. */
module Wrappers {

  /** A value that may be absent. */
  datatype Option<+T> = None | Some(value: T)

  /** The value a call computed, or the error it raised instead. */
  datatype Result<+R, +E> = Success(value: R) | Failure(error: E)
}
