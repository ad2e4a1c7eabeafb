/** Option and Result: the error-returning shape of the Go code, `(T, error)`. */
module Wrappers {

  datatype Option<+T> = None | Some(value: T)

  /** `Ok(v)` is a Go call returning `(v, nil)`; `Err(e)` one returning a non-nil error `e`. */
  datatype Result<+T, +E> = Ok(value: T) | Err(error: E)
}
