/** Option and Result, used for absent values (a JavaScript `null`) and for
    calls that either resolve with a value or reject with an error. */
module Wrappers {

  datatype Option<+T> = None | Some(value: T)

  datatype Result<+T, +E> = Success(value: T) | Failure(error: E)
}
