/** Optional values and outcomes that may fail, as used throughout the model. */
module Wrappers {

  /** A value that may be absent: JavaScript's `undefined` / `null` where the
      source distinguishes "no value" from a value. */
  datatype Option<+T> = None | Some(value: T)

  /** The outcome of a computation that may throw. */
  datatype Result<+T, +E> = Ok(value: T) | Err(error: E)
}
