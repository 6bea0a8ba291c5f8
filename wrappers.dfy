/** Optional values and results with an error, shared by the backend and the frontend models. */
module Wrappers {

  /** A value that may be absent: a missing dictionary key, a JavaScript `null`. */
  datatype Option<+T> = None | Some(value: T)

  /** The value of a computation, or the error that aborted it. */
  datatype Result<+T, +E> = Ok(value: T) | Err(error: E)
}
