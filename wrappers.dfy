/** Option and Result, with the failure-propagation members `:-` needs. */
module Wrappers {
  datatype Option<+T> = None | Some(value: T)

  datatype Result<+T, +E> = Ok(value: T) | Err(error: E) {
    predicate IsFailure() { Err? }

    function PropagateFailure<U>(): Result<U, E>
      requires Err?
    {
      Err(error)
    }

    function Extract(): T
      requires Ok?
    {
      value
    }

    function MapError<F>(f: E -> F): Result<T, F> {
      match this
      case Ok(v) => Ok(v)
      case Err(e) => Err(f(e))
    }
  }
}
