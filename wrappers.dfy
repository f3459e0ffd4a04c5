/** Optional values and success-or-error results, standing in for Swift's
    optionals and for functions that throw. */
module Wrappers {

  datatype Option<+T> = None | Some(value: T)

  datatype Result<+T, +E> = Success(value: T) | Failure(error: E)
}
