/** Optional values (the "nothing selected" sentinel of a selection box) and results. */
module Wrappers {
  datatype Option<+T> = None | Some(value: T)

  datatype Result<+R, +E> = Success(value: R) | Failure(error: E)
}
