/** Failure-compatible wrappers shared by the triage model. */
module Wrappers {

  /** A value that may be absent: JavaScript's `null` where the source returns one. */
  datatype Option<+T> = None | Some(value: T)

  /** The outcome of a call that may throw: the value it returned, or what it threw. */
  datatype Result<+T, +E> = Success(value: T) | Failure(error: E)
}
