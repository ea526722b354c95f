/** Optional values and error results shared by every module of the model. */
module Wrappers {

  /** A value that may be absent (Python's `None`). */
  datatype Option<+T> = None | Some(value: T)

  /** The outcome of an operation that can raise: its value or the error it raises. */
  datatype Result<+R, +E> = Ok(value: R) | Err(error: E)
}
