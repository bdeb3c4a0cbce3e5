/** Optional values and results with an error, for the places where JavaScript
    returns `undefined`/`NaN` or throws. */
module Wrappers {
  datatype Option<+T> = None | Some(value: T)

  datatype Result<+T, +E> = Ok(value: T) | Err(error: E)
}
