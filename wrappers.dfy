/** Option and Result, the failure-carrying values the model uses in place of
    C null pointers and s2n's negative status codes. */
module Wrappers {

  /** A value that may be absent: a pointer that may be NULL. */
  datatype Option<+T> = None | Some(value: T)

  /** The outcome of an s2n call: a value written through the out-parameter on
      success, or the reason the call failed. */
  datatype Result<+T, +E> = Success(value: T) | Failure(error: E)
}
