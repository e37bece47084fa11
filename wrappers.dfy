/** Optional values and error-or-value results, the model of Go's `(T, error)` returns. */
module Wrappers {

  datatype Option<T> = None | Some(value: T)
  {
    predicate IsSome() { Some? }

    function GetOr(default: T): T
    {
      match this
      case Some(v) => v
      case None => default
    }
  }

  /** `Err(message)` stands for a non-nil Go `error` whose text is `message`. */
  datatype Result<T> = Ok(value: T) | Err(message: string)
  {
    predicate IsFailure() { Err? }
  }
}
