/** Option and Result, the two failure-carrying datatypes the model uses for
    optional parameters (a host default applies when absent) and for steps
    that may raise an error carrying a message. */
module Wrappers {

  datatype Option<+T> = None | Some(value: T) {

    /** The wrapped value, or `default` when absent. */
    function GetOr(default: T): T {
      match this
      case Some(v) => v
      case None => default
    }
  }

  datatype Result<+R, +E> = Success(value: R) | Failure(error: E)
}
