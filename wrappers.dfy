/** Optional values and success/failure results, shared by the other modules. */
module Wrappers {

  datatype Option<+T> = None | Some(value: T)

  /** The outcome of a validation step: a value, or what went wrong. */
  datatype Result<+T, +E> = Ok(value: T) | Err(error: E)
}
