/** Optional values and outcomes shared by the other modules. */
module Wrappers {

  /** A C# nullable value: `None` stands for `null`. */
  datatype Option<+T> = None | Some(value: T)

  /** The outcome of a call that either returns a value or throws an exception with a message. */
  datatype Result<+T, +E> = Success(value: T) | Failure(error: E)
}
