/** Option and Result, the model's stand-ins for Kotlin's nullable types and for thrown
    IllegalArgumentExceptions. */
module Wrappers {

  /** A Kotlin `T?`: `None` is `null`. */
  datatype Option<+T> = None | Some(value: T)

  /** What a call that may throw returns: its value, or the exception it throws. */
  datatype Result<+T> = Ok(value: T) | Err(error: Error)

  /** The exceptions the modelled code can throw. */
  datatype Error = IllegalArgument(message: string)
}
