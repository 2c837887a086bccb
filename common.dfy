/** Optional values and results, used for the nil-able fields and the error paths of the model. */
module Common {

  datatype Option<T> = None | Some(value: T) {
    /** The wrapped value, or `default` for None (Ruby's `x || default`). */
    function GetOr(default: T): T {
      match this
      case Some(v) => v
      case None => default
    }
  }

  datatype Result<T, E> = Success(value: T) | Failure(error: E)

  function Max(a: int, b: int): int {
    if a < b then b else a
  }
}
