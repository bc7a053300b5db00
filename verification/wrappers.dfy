/** Optional values and error-carrying results, used wherever the integration
    returns Python's `None` or raises an exception. */
module Wrappers {

  datatype Option<+T> = None | Some(value: T)

  datatype Result<+R, +E> = Success(value: R) | Failure(error: E)
}
