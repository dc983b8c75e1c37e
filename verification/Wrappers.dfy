// The two wrapper types every module shares: a value that may be missing, and
// the outcome of an operation that the program reports as an exception.
module Wrappers {
  datatype Option<+T> = None | Some(value: T)

  datatype Result<+T, +E> = Ok(value: T) | Err(error: E)
}
