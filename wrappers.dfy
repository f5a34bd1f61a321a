/** Small failure-carrying datatypes used where the game returns a null pointer
    or throws an exception. */
module Wrappers {

  /** A value that may be absent; `None` stands for a null pointer. */
  datatype Option<+T> = None | Some(value: T)

  /** A value, or the reason there is none. */
  datatype Result<+T, +E> = Success(value: T) | Failure(error: E)

  /** The outcome of an operation that either completes or throws with a message. */
  datatype Outcome<+E> = Pass | Fail(error: E)
}
