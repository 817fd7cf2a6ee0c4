/** Option and Result, the failure-carrying values the model uses for
    JavaScript's `null`/`undefined` and for a thrown error. */
module Wrappers {

  datatype Option<+T> = None | Some(value: T)

  datatype Result<+T, +E> = Ok(value: T) | Err(error: E)
}
