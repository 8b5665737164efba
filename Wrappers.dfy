/** Optional values and results with an error, used wherever the JavaScript
    code returns `undefined` or throws. */
module Wrappers {

  datatype Option<+T> = None | Some(value: T)

  datatype Result<+T, +E> = Success(value: T) | Failure(error: E)
}
