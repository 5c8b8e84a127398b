/** Optional values and results with an error, shared by every module of the model. */
module Wrappers {

  /** A value that may be absent: Go's nil pointer, nil map or a missing map entry. */
  datatype Option<+T> = None | Some(value: T)

  /** A value or the error that replaced it: Go's `(value, error)` return pairs. */
  datatype Result<+T, +E> = Ok(value: T) | Err(error: E)
}
