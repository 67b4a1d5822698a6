/** Option and Result, the two failure-carrying datatypes the model uses:
    `Option` stands for a Python value that may be `None`, `Result` for a call
    that either returns a value or raises. */
module Wrappers {

  datatype Option<+T> = None | Some(value: T)

  datatype Result<+R, +E> = Success(value: R) | Failure(error: E)
}
