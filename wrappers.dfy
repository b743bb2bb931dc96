/** Small failure-carrying datatypes shared by every module of the model. */
module Wrappers {

  /** A value that may be absent: an optional JSON field, a missing key. */
  datatype Option<+T> = None | Some(value: T)

  /** The outcome of an operation that can throw: the thrown message on failure. */
  datatype Result<+T> = Ok(value: T) | Err(error: string)

  /** A request body after `request.json()`: a decoded value, or the message of the parse error. */
  datatype Parsed<+T> = Decoded(value: T) | Malformed(reason: string)
}
