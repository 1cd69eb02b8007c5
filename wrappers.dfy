/** Option and Result values used where the source has `null` or throws. */
module Wrappers {

  /** A value or its absence (the source's `null`). */
  datatype Option<+T> = None | Some(value: T)

  /** A value, or the message of the error the source throws. */
  datatype Result<+T> = Ok(value: T) | Err(message: string)
}
