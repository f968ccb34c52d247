/** Option and Result, the two failure-carrying shapes the model uses for
    JavaScript's `null`/`undefined` results and for thrown errors. */
module Wrappers {

  datatype Option<+T> = None | Some(value: T) {
    function GetOr(default: T): T {
      match this
      case Some(v) => v
      case None => default
    }
  }

  /** A JavaScript error: only its `message` is ever read by the code modelled. */
  datatype Error = Error(message: string)

  /** The outcome of a call that either returns a value or throws. */
  datatype Result<+R> = Success(value: R) | Failure(error: Error)
}
