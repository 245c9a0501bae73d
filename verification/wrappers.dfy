/** Failure-compatible wrappers shared by the value objects: an optional
    value (a JavaScript `undefined`, or `NaN` for a time value) and the
    outcome of a constructor that may throw. */
module Wrappers {

  /** `None` stands for an absent or invalid value. */
  datatype Option<+T> = None | Some(value: T)

  /** `Failure` stands for a constructor that threw instead of returning an object. */
  datatype Result<+R, +E> = Success(value: R) | Failure(error: E)
}
