/** Option and Result, the two failure-carrying shapes the model needs. */
module Wrappers {

  /** A value that may be absent: an optional field of a record in the knowledge base. */
  datatype Option<+T> = None | Some(value: T)

  /** The outcome of a handler: a value, or the message of an error the handler threw. */
  datatype Result<+R, +E> = Ok(value: R) | Err(error: E)
}
