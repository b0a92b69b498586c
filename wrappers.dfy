/** Failure-carrying values shared by the other modules. */
module Wrappers {

  datatype Option<+T> = None | Some(value: T)

  /** The outcome of a request handler: a value, or the HTTP status it fails with. */
  datatype Result<+R, +E> = Ok(value: R) | Err(error: E)
}
