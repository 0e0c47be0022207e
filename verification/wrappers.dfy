/** Failure-carrying result types shared by the geometry modules. */
module Wrappers {

  /** A value that may be absent, used where the source yields no real number. */
  datatype Option<+T> = None | Some(value: T)

  /** A value or the error the source would throw instead of returning. */
  datatype Result<+R, +E> = Success(value: R) | Failure(error: E)
}
