/** Option and Result, used for nullable pointers and for the exceptions of std::stoi. */
module Wrappers {

  datatype Option<+T> = None | Some(value: T)

  datatype Result<+T, +E> = Ok(value: T) | Err(error: E)
}
