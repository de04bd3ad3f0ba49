/** Option and Result, the failure-carrying datatypes used throughout the model. */
module Wrappers {

  datatype Option<+T> = None | Some(value: T)

  /** A Python call either returns a value or raises an exception `error`. */
  datatype Result<+T, +E> = Ok(value: T) | Err(error: E)
}
