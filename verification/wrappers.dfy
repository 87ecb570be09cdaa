/** Optional values and error results shared by every module of the model. */
module Wrappers {

  /** A JavaScript value that may be `null`/`undefined`. */
  datatype Option<+T> = None | Some(value: T)

  /** The outcome of a request handler: a response value, or the error it throws. */
  datatype Result<+T, +E> = Ok(value: T) | Err(error: E)
}
