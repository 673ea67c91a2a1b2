/** Option and Result, the failure-carrying wrappers used throughout the model. */
module Wrappers {

  datatype Option<+T> = None | Some(value: T)

  /** Ok carries a value; Err carries the error a Python call would have raised. */
  datatype Result<+T, +E> = Ok(value: T) | Err(error: E)
}
