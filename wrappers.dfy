/** Option and Result, the two failure-carrying values the model uses
    in place of Java's null and Java's exceptions. */
module Wrappers {

  /** `None` stands for a Java `null`. */
  datatype Option<+T> = None | Some(value: T) {
    function GetOr(default: T): T {
      match this
      case Some(v) => v
      case None => default
    }
  }

  /** `Failure` stands for an exception thrown out of the modelled call. */
  datatype Result<+R, +E> = Success(value: R) | Failure(error: E)
}
