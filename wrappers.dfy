/** Small value wrappers shared by every module of the model. */
module Wrappers {

  /** A JavaScript value that may be `null` or `undefined`. */
  datatype Option<+T> = None | Some(value: T)

  /** A settled promise: it either resolved with a value or was rejected (threw). */
  datatype Remote<+T> = Resolved(value: T) | Rejected

  /** The outcome of a call that may throw: it returned a value or raised an error. */
  datatype Result<+T, +E> = Success(value: T) | Failure(error: E)
}
