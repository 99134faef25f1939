/** Optional values and success/failure results, as Swift's `T?` and `Result<T, Error>`. */
module Wrappers {

  datatype Option<+T> = None | Some(value: T)

  datatype Result<+R, +E> = Success(value: R) | Failure(error: E)
}
