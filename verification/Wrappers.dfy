/** Small option and result types shared by the dashboard modules. */
module Wrappers {

  /** A value that may be missing (JavaScript `null` / `undefined`). */
  datatype Option<+T> = None | Some(value: T)

  /** The settled outcome of a promise: a value, or the message of the rejection. */
  datatype Result<+T> = Ok(value: T) | Err(message: string)
}
