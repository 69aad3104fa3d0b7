/** The result shapes every module shares. */
module Wrappers {
  datatype Option<+T> = None | Some(value: T)

  /** A Python call: its value, or the exception it raised. */
  datatype Result<+T, +E> = Ok(value: T) | Err(error: E)
}
