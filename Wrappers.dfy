/** Option and Result, the two wrappers the client library's Rust code uses throughout. */
module Wrappers {

  datatype Option<+T> = None | Some(value: T)

  /** A Result; the three members let `:-` propagate an `Err` the way Rust's `?` does. */
  datatype Result<+T, +E> = Ok(value: T) | Err(error: E)
  {
    predicate IsFailure()
    {
      Err?
    }

    function PropagateFailure<U>(): Result<U, E>
      requires Err?
    {
      Err(error)
    }

    function Extract(): T
      requires Ok?
    {
      value
    }
  }
}
