/** Optional values and call outcomes, used for the source's nullable fields
    (`T | null`) and for promises that either resolve or reject. */
module Wrappers {

  datatype Option<+T> = None | Some(value: T)

  /** The outcome of an awaited call: the value it resolved with, or the
      error it rejected with. */
  datatype Result<+R, +E> = Success(value: R) | Failure(error: E)
}
