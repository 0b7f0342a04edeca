/** Option and Result values, used wherever the modelled JavaScript returns
    `undefined`/`null` or throws an exception. */
module Wrappers {

  datatype Option<+T> = None | Some(value: T)

  datatype Result<+T, +E> = Ok(value: T) | Err(error: E)
}
