/** Optional values and results with an error, as the service code uses `null` and
    thrown errors. */
module Wrappers {

  /** A value that may be absent (`null` or `undefined` in the service code). */
  datatype Option<+T> = None | Some(value: T)

  /** The outcome of a call that either returns a value or throws an error with a message. */
  datatype Result<+T, +E> = Ok(value: T) | Err(error: E)
}
