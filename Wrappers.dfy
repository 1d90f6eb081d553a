/** Option and Result: absent values (`undefined`) and operations that may throw. */
module Wrappers {

  datatype Option<+T> = None | Some(value: T)

  /** `Failure` carries the message of the exception the source would throw. */
  datatype Result<+T> = Success(value: T) | Failure(error: string)
}
