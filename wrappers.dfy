/** Option and Result, used for values the source may leave undefined and for
    callbacks that report either data or an error. */
module Wrappers {

  datatype Option<+T> = None | Some(value: T)

  datatype Result<+T, +E> = Ok(value: T) | Err(error: E)
}
