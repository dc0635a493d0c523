/** Optional values and results with an error message: JavaScript's `undefined`
    and thrown exceptions, made explicit. */
module Wrappers {

  datatype Option<+T> = None | Some(value: T)

  /** `Err` carries the message of the exception the source would throw. */
  datatype Result<+T> = Ok(value: T) | Err(message: string)
}
