/** Optional values and results with an error: the model's stand-ins for
    missing table entries (NaN) and for raised exceptions. */
module Wrappers {

  datatype Option<+T> = None | Some(value: T)

  datatype Result<+T, +E> = Ok(value: T) | Err(error: E)
}
