/** Optional record fields (JavaScript `undefined`) and request outcomes
    (a resolved response or a thrown error). */
module Wrappers {

  datatype Option<+T> = None | Some(value: T) {

    /** Falls back to `default` for a field the record does not carry */
    function GetOr(default: T): T {
      match this
      case Some(v) => v
      case None => default
    }
  }

  datatype Result<+R, +E> = Success(value: R) | Failure(error: E)
}
