/** Option and Result, used for the optional keys of a history entry and
    for the KeyError that a missing key raises. */
module Wrappers {

  datatype Option<+T> = None | Some(value: T)

  datatype Result<+R, +E> = Success(value: R) | Failure(error: E)
}
