/** Option and Result, shared by the Fit service model and the HealthKit manager model. */
module Wrappers {

  /** A value that may be absent: a missing dictionary key, a nil HealthKit quantity. */
  datatype Option<+T> = None | Some(value: T) {

    /** The wrapped value, or `default` when there is none (Swift's `??`, Python's `.get(k, d)`). */
    function GetOr(default: T): (r: T)
      ensures Some? ==> r == value
      ensures None? ==> r == default
    {
      match this
      case Some(v) => v
      case None => default
    }
  }

  /** The outcome of an operation that may raise. */
  datatype Result<+R, +E> = Success(value: R) | Failure(error: E)
}
