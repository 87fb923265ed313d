/** Optional values and results of calls that may raise an error with a message. */
module Wrappers {

  datatype Option<+T> = None | Some(value: T)

  /** The value a call returns, or the message of the error it raises. */
  datatype Result<+T> = Success(value: T) | Failure(message: string)

  /** The answer of a store call that returns nothing: success, or the error's message. */
  datatype StepOutcome = Succeeds | Fails(message: string)
}
