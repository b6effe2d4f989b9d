/** Optional values and results shared by every module of the model. */
module Wrappers {

  /** `undefined`/`null` versus a present value. */
  datatype Option<+T> = None | Some(value: T)

  /** A value, or the error an operation throws. */
  datatype Result<+R, +E> = Success(value: R) | Failure(error: E)
}
