/** Option and Result, the two wrappers the model uses for JavaScript's
    `undefined`/`null` values and for exceptions. */
module Wrappers {

  datatype Option<+T> = None | Some(value: T)

  datatype Result<+R, +E> = Ok(value: R) | Err(error: E)
}
