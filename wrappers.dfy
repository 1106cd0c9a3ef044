/** Failure-carrying values used throughout the model. A JavaScript exception
    becomes `Err(message)`, carrying the `message` of the thrown `Error`. */
module Wrappers {

  datatype Option<+T> = None | Some(value: T)

  datatype Result<+T> = Ok(value: T) | Err(message: string)

  /** The outcome of an operation that returns nothing but may throw. */
  datatype Outcome = Pass | Fail(message: string)
}
