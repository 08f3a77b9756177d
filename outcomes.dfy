/** Optional values and the outcome of a fallible collaborator call. */
module Outcomes {

  /** A value that may be absent: JavaScript's `undefined`/`null` on the one side, a value on the other. */
  datatype Option<+T> = None | Some(value: T)

  /** What a collaborator call gives back: a value, or the message of the error it throws. */
  datatype Outcome<+T> = Ok(value: T) | Err(message: string)
}
