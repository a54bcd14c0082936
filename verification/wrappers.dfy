/** Failure-carrying results shared by every module of the model. */
module Wrappers {

  /** A value that may be absent: the model of an optional field or an `undefined` result. */
  datatype Option<+T> = None | Some(value: T) {

    /** The value, or `default` when there is none. */
    function GetOr(default: T): T {
      match this
      case Some(v) => v
      case None => default
    }
  }

  /** Either a computed value or the reason the computation was abandoned. */
  datatype Result<+R, +E> = Success(value: R) | Failure(error: E)
}
