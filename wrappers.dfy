/** Option and Result, the tagged results used in place of Python's `None` and exceptions. */
module Wrappers {

  datatype Option<+T> = None | Some(value: T)

  /** The outcome of a Python call that either returns a value or raises. */
  datatype Result<+T, +E> = Ok(value: T) | Err(error: E)
}
