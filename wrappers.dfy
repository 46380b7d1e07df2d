/** The result of an operation that can fail, standing in for a Python exception. */
module Wrappers {

  datatype Result<+T, +E> = Success(value: T) | Failure(error: E)
}
