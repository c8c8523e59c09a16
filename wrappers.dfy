/** Option and Result, for JavaScript's `undefined`/`null`/`NaN` and for
    calls into the backend that either return a value or fail. */
module Wrappers {

  datatype Option<+T> = None | Some(value: T)

  datatype Result<+T, +E> = Ok(value: T) | Err(error: E)
}
