/** Option and Result, used for values the gateway may lack (an unset
    environment variable, a missing header) and for startup failure. */
module Wrappers {

  datatype Option<+T> = None | Some(value: T)

  datatype Result<+R, +E> = Success(value: R) | Failure(error: E)
}
