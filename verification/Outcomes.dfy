/** Result values standing for the service's returned values and thrown exceptions. */
module Outcomes {

  datatype Option<+T> = None | Some(value: T)

  /** Either the value a call returns or the error it throws. */
  datatype Result<+T, +E> = Ok(value: T) | Err(error: E)
}
