/** Option and Result values for lookups that may miss and calls that may throw. */
module Wrappers {

  /** JavaScript's `undefined` (None) or a present value (Some). */
  datatype Option<+T> = None | Some(value: T)

  /** A call that returns normally (Success) or throws (Failure, with the error's message). */
  datatype Result<+T> = Success(value: T) | Failure(error: string)
}
