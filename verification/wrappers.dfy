/** The two small sum types the expansion is written with. */
module Wrappers {

  /** A value that may be missing, such as the handle expression before any `db = ...` entry. */
  datatype Option<+T> = None | Some(value: T) {

    /** The value if there is one, `default` otherwise. */
    function GetOr(default: T): T
    {
      if Some? then value else default
    }
  }

  /**
   * Either the macro's result or the reason compilation stops; the three
   * members below let `:-` hand an error straight back to the caller.
   */
  datatype Result<+R, +E> = Success(value: R) | Failure(error: E) {

    predicate IsFailure()
    {
      Failure?
    }

    function PropagateFailure<U>(): Result<U, E>
      requires Failure?
    {
      Failure(error)
    }

    function Extract(): R
      requires Success?
    {
      value
    }
  }
}
