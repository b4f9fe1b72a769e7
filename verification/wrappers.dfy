/** Option and Result: the model's stand-ins for `undefined`/`null` and for a
    promise that either resolves with a value or rejects with an error message. */
module Wrappers {

  datatype Option<+T> = None | Some(value: T)

  datatype Result<+R, +E> = Success(value: R) | Failure(error: E)
}
