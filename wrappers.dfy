/** Optional values and success-or-error results, used wherever the source
    returns null, throws, or answers with an HTTP error instead of a value. */
module Wrappers {

  datatype Option<+T> = None | Some(value: T)

  datatype Result<+R, +E> = Success(value: R) | Failure(error: E)
}
