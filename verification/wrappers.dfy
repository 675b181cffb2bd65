// Option and Result: how the model writes Python's `None` and a raised exception
// as ordinary values. Both support Dafny's `:-` early-return operator.
module Wrappers {

  // A value that may be missing; `None` plays Python's `None`.
  datatype Option<+T> = None | Some(value: T) {

    predicate IsFailure() {
      None?
    }

    function PropagateFailure<U>(): Option<U>
      requires None?
    {
      None
    }

    function Extract(): T
      requires Some?
    {
      value
    }

    // Python's `d.get(k, fallback)` once the lookup has been made.
    function GetOr(fallback: T): T {
      if Some? then value else fallback
    }
  }

  // A computed value, or the exception the Python code would raise instead.
  datatype Result<+R, +E> = Success(value: R) | Failure(error: E) {

    predicate IsFailure() {
      Failure?
    }

    function PropagateFailure<U>(): Result<U, E>
      requires Failure?
    {
      Failure(error)
    }

    function Extract(): R
      requires Success?
    {
      value
    }
  }
}
