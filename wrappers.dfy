/** Optional values and results with an error, shared by the models of both scripts. */
module Wrappers {

  /** A value that may be missing: a JavaScript property that is absent or undefined. */
  datatype Option<+T> = None | Some(value: T)

  /** The outcome of an operation that can throw. */
  datatype Result<+R, +E> = Ok(value: R) | Err(error: E)
}
