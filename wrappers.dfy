/** Optional values and results, used wherever the page tolerates a missing
    key or reports an error instead of raising. */
module Wrappers {

  /** A value that may be missing: a dictionary key that is absent or null. */
  datatype Option<+T> = None | Some(value: T)

  /** The outcome of a stage that either produces a value or stops with an error. */
  datatype Result<+R, +E> = Success(value: R) | Failure(error: E)

  /** `d.get(key, default)` once the lookup has produced an Option. */
  function GetOr<T>(o: Option<T>, default: T): T {
    match o
    case Some(v) => v
    case None => default
  }
}
