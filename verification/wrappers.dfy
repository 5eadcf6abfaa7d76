/** Optional values and results shared by the modules of this model. */
module Wrappers {

  /** `None` stands for Go's nil (a nil error, a nil slice, an absent entry). */
  datatype Option<+T> = None | Some(value: T)

  /** A value or the error that prevented computing it. */
  datatype Result<+T, +E> = Success(value: T) | Failure(error: E)
}
