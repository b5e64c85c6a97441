/** Optional values and results with an error message, for the operations of the library that
    return `undefined` or throw. */
module Wrappers {

  datatype Option<T> = None | Some(value: T)

  datatype Result<T> = Ok(value: T) | Err(error: string)
  {
    predicate IsFailure() { Err? }
  }
}
