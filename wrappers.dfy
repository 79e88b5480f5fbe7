/** Optional values and results, shared by the document modules. */
module Wrappers {

  /** An optional value: the source's nullable properties. */
  datatype Option<+T> = None | Some(value: T)

  /** Either a value or the exception the source would have thrown instead. */
  datatype Result<+R, +E> = Success(value: R) | Failure(error: E)
}
