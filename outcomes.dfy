/** Failure-carrying values standing in for Go's `(value, error)` pairs and nil-able errors. */
module Outcomes {

  /** An optional value; `None` plays the role of a nil `error`. */
  datatype Option<T> = None | Some(value: T)

  /** A value or the text of the error that replaced it. */
  datatype Result<T> = Ok(value: T) | Err(error: string)
}
