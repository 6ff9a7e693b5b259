/** Optional values and results with an error, the shapes Go's `(T, error)` returns take here. */
module Wrappers {

  datatype Option<+T> = None | Some(value: T)

  /** `Ok(v)` stands for Go's `(v, nil)`; `Err(e)` for `("", e)` or `(nil, e)`. */
  datatype Result<+T, +E> = Ok(value: T) | Err(error: E)
}
