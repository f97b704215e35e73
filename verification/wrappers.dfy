/** Ruby's `nil` as `None`, and a raised exception as `Failure` (usable with `:-`). */
module Wrappers {

  /** An optional value; `None` stands for Ruby's `nil`. */
  datatype Option<+T> = None | Some(value: T) {

    /** The value, or `default` when there is none (Ruby's `x || default`). */
    function GetOr(default: T): T {
      if Some? then value else default
    }
  }

  /** Either a value or the exception the Ruby code would raise. */
  datatype Result<+R, +E> = Success(value: R) | Failure(error: E) {

    predicate IsFailure() {
      Failure?
    }

    function PropagateFailure<U>(): Result<U, E>
      requires Failure?
    {
      Failure(error)
    }

    function Extract(): R
      requires Success?
    {
      value
    }
  }
}
