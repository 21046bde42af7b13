/** Option and Result, the two wrappers the bridge model uses for Kotlin's
    nullable results and for calls that may throw. */
module Wrappers {

  /** A Kotlin `T?`: either a value or null. */
  datatype Option<+T> = None | Some(value: T)

  /** The outcome of a call that may throw: its value, or the exception's message. */
  datatype Result<+T> = Success(value: T) | Failure(exception: string)
}
