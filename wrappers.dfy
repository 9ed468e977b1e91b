/** Option and Result values used for the source's `undefined`/`null` and its thrown or rejected errors. */
module Wrappers {

  datatype Option<+T> = None | Some(value: T)

  datatype Result<+T, +E> = Ok(value: T) | Err(error: E)
}
