/** Optional values and results shared by the modules of the draw-canvas model. */
module Wrappers {

  /** A value that may be absent: the model's stand-in for JavaScript's `null`/`undefined`. */
  datatype Option<+T> = None | Some(value: T)

  /** The result of an operation that throws in the original program. */
  datatype Result<+R, +E> = Success(value: R) | Failure(error: E)

  /** The outcome of an operation that returns nothing but may fail. */
  datatype Outcome<+E> = Pass | Fail(error: E)
}
