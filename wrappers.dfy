/** Option and Result, used for absent dictionary keys and for the
    exceptions the translator raises. */
module Wrappers {

  datatype Option<+T> = None | Some(value: T)

  datatype Result<+T, +E> = Ok(value: T) | Err(error: E)
}
