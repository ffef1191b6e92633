/** Absence and failure, as the modelled JavaScript expresses them with
    `undefined` and with thrown `Error`s. */
module Wrappers {

  /** An optional value: `None` stands for a key that is absent (or `undefined`). */
  datatype Option<+T> = None | Some(value: T) {

    /** The value, or `default` when absent (a destructuring default or `??`). */
    function GetOr(default: T): T {
      match this
      case Some(v) => v
      case None() => default
    }
  }

  /** The outcome of a call that may throw: `Failure` carries the `Error` message. */
  datatype Result<+T> = Success(value: T) | Failure(error: string)
}
