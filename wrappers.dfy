// Optional values and results with an error, the two shapes the services use
// for "might be absent" (a nullable column, an empty Optional) and for
// "might throw an ApiException".
module Wrappers {

  datatype Option<T> = None | Some(value: T)
  {
    /** The value, or `default` when absent (Java's `x != null ? x : default`). */
    function GetOr(default: T): T
    {
      match this
      case None => default
      case Some(v) => v
    }
  }

  datatype Result<T, E> = Success(value: T) | Failure(error: E)
  {
    predicate IsFailure() { Failure? }
  }
}
