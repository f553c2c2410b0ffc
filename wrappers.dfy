/** Option and Result: the error returns of Go functions and the throws of TypeScript ones. */
module Wrappers {

  datatype Option<+T> = None | Some(value: T)

  datatype Result<+T, +E> = Ok(value: T) | Err(error: E)
}
