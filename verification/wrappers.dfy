/** Option and Result: the model's stand-ins for Java's nullable references
    and for exceptions thrown out of a call. */
module Wrappers {

  /** `None` plays the role of a Java `null` reference. */
  datatype Option<+T> = None | Some(value: T) {

    /** The wrapped value, or `default` when there is none. */
    function GetOr(default: T): (r: T)
      ensures Some? ==> r == value
      ensures None? ==> r == default
    {
      match this
      case Some(v) => v
      case None => default
    }
  }

  /** `Failure` plays the role of an exception thrown by a call. */
  datatype Result<+R, +E> = Success(value: R) | Failure(error: E)
}
