/** Option and Result, the two failure-carrying datatypes the model uses. */
module Wrappers {

  /** A value that may be missing: a JSON property that is `undefined`, a header that is `null`. */
  datatype Option<+T> = None | Some(value: T)

  /** The outcome of a check: the accepted value, or the message sent back to the client. */
  datatype Result<+R, +E> = Success(value: R) | Failure(error: E)
}
