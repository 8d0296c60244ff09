/** Optional values and results with an error, used wherever the source
    has `undefined`/`null` values or returns an error status. */
module Wrappers {

  datatype Option<+T> = None | Some(value: T)

  datatype Result<+R, +E> = Ok(value: R) | Err(error: E)
}
