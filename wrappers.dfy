/** Option and Result values, used wherever the Go code returns a value
    together with an error, or a value that may be missing (nil). */
module Wrappers {

  datatype Option<+T> = None | Some(value: T)

  datatype Result<+T, +E> = Ok(value: T) | Err(error: E)
}
