/** Optional values and the success/failure outcome of a collaborator call. */
module Wrappers {

  /** Python's `Optional[T]`: `None` or a present value. */
  datatype Option<+T> = None | Some(value: T)

  /** The outcome of a call that may raise: its value, or the text of the exception. */
  datatype Result<+T> = Ok(value: T) | Err(message: string)
}
