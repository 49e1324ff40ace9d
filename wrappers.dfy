/** Optional values and error-carrying results, shared by every module of the model.
    `None` stands for a JavaScript property that is absent (or `undefined`/`null`);
    `Failure` stands for an `Error` the source throws. */
module Wrappers {

  datatype Option<+T> = None | Some(value: T) {
    /** `x ?? d` in the source */
    function GetOr(default: T): T {
      match this
      case Some(v) => v
      case None => default
    }
  }

  datatype Result<+R> = Success(value: R) | Failure(message: string)
}
