/** Optional values and results shared by every module of the model. */
module Wrappers {

  /** An optional value: the model's stand-in for a Java reference that may be null. */
  datatype Option<+T> = None | Some(value: T)

  /** A value or an error, for the places where the source throws or exits. */
  datatype Result<+T, +E> = Success(value: T) | Failure(error: E)
}
