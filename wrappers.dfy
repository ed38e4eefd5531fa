/** Optional values and results with an error, used by every module of the model. */
module Wrappers {

  /** A value that may be absent: JavaScript's `null`/`undefined`, Python's `None`. */
  datatype Option<+T> = None | Some(value: T)

  /** The outcome of an operation that may fail: a value or an error (a raised exception). */
  datatype Result<+T, +E> = Ok(value: T) | Err(error: E)
}
