/** Optional values and results with an error value: the Go idioms of a nil pointer and of an
    `(value, error)` pair. */
module Wrappers {

  datatype Option<+T> = None | Some(value: T)

  datatype Result<+T, +E> = Success(value: T) | Failure(error: E)
}
