/** Optional values and error-or-value results, used for absent request fields and rejected saves. */
module Wrappers {

  datatype Option<+T> = None | Some(value: T)

  datatype Result<+T, +E> = Success(value: T) | Failure(error: E)
}
