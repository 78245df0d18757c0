/** Failure-carrying values shared by the other modules. */
module Wrappers {

  datatype Option<T> = None | Some(value: T)

  /** A computation that either produces a value or raises an error. */
  datatype Result<T, E> = Ok(value: T) | Err(error: E)

  /** A computation that produces no value but may raise an error. */
  datatype Outcome<E> = Pass | Fail(error: E)
}
