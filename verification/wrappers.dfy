/** Optional values and results with an error, used for the attributes a
    properties report may leave out and for the one error an extractor raises. */
module Wrappers {

  datatype Option<+T> = None | Some(value: T)

  datatype Result<+R, +E> = Success(value: R) | Failure(error: E)
}
