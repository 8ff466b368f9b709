/** Wrappers used throughout the model: `Option` for values
    that may be absent (a nil Go map), `Result` for Go's `(value, error)` pairs. */
module Wrappers {

  datatype Option<+T> = None | Some(value: T)

  datatype Result<+R, +E> = Success(value: R) | Failure(error: E)
}
