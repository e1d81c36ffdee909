/** Failure-carrying datatypes used where the modelled code can come back empty-handed or throw. */
module Wrappers {

  datatype Option<T> = None | Some(value: T)

  datatype Result<T, E> = Success(value: T) | Failure(error: E)
}
