/** Option and Result, used for Go's `(value, error)` pairs and Python's exceptions. */
module Wrappers {
  datatype Option<T> = None | Some(value: T)

  datatype Result<T, E> = Ok(value: T) | Failure(error: E)
  {
    predicate IsFailure() { Failure? }
  }
}
