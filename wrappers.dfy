/** Option and Result values for the source's "missing" values and error paths. */
module Wrappers {

  /** A value that may be absent (Python's None, a query parameter not given). */
  datatype Option<+T> = None | Some(value: T)

  /** The outcome of an operation that may be rejected with a message. */
  datatype Result<+T> = Ok(value: T) | Err(message: string)
}
