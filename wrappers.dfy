/** Failure-compatible wrappers shared by the other modules. */
module Wrappers {

  datatype Option<+T> = None | Some(value: T)

  /** A construction or native call that can fail, as the source's exceptions do. */
  datatype Result<+R, +E> = Success(value: R) | Failure(error: E)
}
