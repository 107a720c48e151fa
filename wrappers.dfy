/** Failure-carrying results: a thrown JavaScript error becomes `Err(message)`. */
module Wrappers {

  datatype Result<T> = Ok(value: T) | Err(msg: string)

  datatype Option<T> = None | Some(value: T)

  /** The outcome of an operation that returns nothing but may throw. */
  datatype Outcome = Done | Failed(msg: string)
}
