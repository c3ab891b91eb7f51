/** Failure-carrying values used for the C library's NULL pointers and error returns. */
module Wrappers {

  /** A value that may be absent: a C pointer that may be NULL. */
  datatype Option<+T> = None | Some(value: T)

  /** Either a computed value or the reason it could not be computed. */
  datatype Result<+R, +E> = Ok(value: R) | Err(error: E)
}
