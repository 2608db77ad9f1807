/** The optional and failing results shared by the other modules. */
module Wrappers {

  datatype Option<+T> = None | Some(value: T)

  /** A test helper either returns or stops the run with an error. */
  datatype Result<+T, +E> = Success(value: T) | Failure(error: E)
}
