/** Optional values and results with an error, the shapes Swift's `T?` and `throws` take here. */
module Wrappers {

  datatype Option<+T> = None | Some(value: T) {

    /** `self ?? default` */
    function GetOr(default: T): T
    {
      if Some? then value else default
    }
  }

  datatype Result<+T, +E> = Success(value: T) | Failure(error: E) {

    predicate IsFailure()
    {
      Failure?
    }

    function PropagateFailure<U>(): Result<U, E>
      requires Failure?
    {
      Failure(error)
    }

    function Extract(): T
      requires Success?
    {
      value
    }

    /** `try?`: the value, or nil when the call threw */
    function ToOption(): Option<T>
    {
      if Success? then Some(value) else None
    }
  }
}
