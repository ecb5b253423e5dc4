/** Option and Result, the two failure-carrying shapes the model uses. */
module Wrappers {

  datatype Option<+T> = None | Some(value: T)

  /** The outcome of a Go call that returns a value or an `error`;
      errors are carried as their message text. */
  datatype Result<+T> = Success(value: T) | Failure(error: string)
}
