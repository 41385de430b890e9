/** Option and Result, used for absent values and for raised exceptions. */
module Wrappers {

  datatype Option<+T> = None | Some(value: T)

  /** `Failure` stands for an exception the Python code raises or lets propagate. */
  datatype Result<+T, +E> = Success(value: T) | Failure(error: E)
}
