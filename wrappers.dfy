/** Optional values and the outcome of a call that may throw. */
module Wrappers {

  /** A value that may be absent: `null`/`undefined` in the front end. */
  datatype Option<+T> = None | Some(value: T)

  /** The settled state of a promise: fulfilled with a value or rejected with an error. */
  datatype Result<+T, +E> = Ok(value: T) | Err(error: E)

  /** The `void` of a call that returns nothing useful. */
  datatype Unit = Unit
}
