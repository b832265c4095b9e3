/** Optional values and success/failure results, used for Python's `None`
    and for the `{"error": ...}` dictionaries the tools return. */
module Wrappers {

  datatype Option<+T> = None | Some(value: T)

  datatype Result<+T, +E> = Success(value: T) | Failure(error: E)
}
