/** Optional values and results with an error payload, used for the
    outcomes of the collaborators the proxy calls and of its request builders. */
module Wrappers {

  datatype Option<+T> = None | Some(value: T)

  datatype Result<+R, +E> = Success(value: R) | Failure(error: E)
}
