/** Optional values and success/failure results, used for the source's optional
    record fields (`field?: T`) and for its thrown errors. */
module Wrappers {

  /** An optional field: `None` is a field the caller left out. */
  datatype Option<+T> = None | Some(value: T)

  /** The outcome of an operation that may throw. */
  datatype Result<+R, +E> = Success(value: R) | Failure(error: E)
}
