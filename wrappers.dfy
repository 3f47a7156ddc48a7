/** Failure-carrying wrappers shared by the modules of this model. */
module Wrappers {

  /** A value that may be absent: Go's nil pointer or a missing map key. */
  datatype Option<+T> = None | Some(value: T)

  /** A value or an error: Go's (value, err) return pair. */
  datatype Result<+T, +E> = Ok(value: T) | Err(error: E)
}
