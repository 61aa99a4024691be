/** Option and Result, the two failure-carrying shapes the model uses for the
    Go functions that return `(value, error)` or a possibly-nil pointer. */
module Wrappers {

  datatype Option<+T> = None | Some(value: T)

  datatype Result<+R, +E> = Ok(value: R) | Err(error: E)
}
