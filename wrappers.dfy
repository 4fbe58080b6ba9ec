/** Optional values and results with an error, used where the assistant returns
    `None` or takes an error path. */
module Wrappers {

  datatype Option<+T> = None | Some(value: T)

  datatype Result<+T, +E> = Success(value: T) | Failure(error: E)
}
