/** Optional values and call results shared by the other modules. */
module Wrappers {

  /** An optional value: JavaScript's `undefined`/unset versus a present value. */
  datatype Option<+T> = None | Some(value: T)

  /** The outcome of a call that either returns a value or throws an error. */
  datatype Result<+T, +E> = Success(value: T) | Failure(error: E)
}
