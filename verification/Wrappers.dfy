/** Failure-compatible results and optional values, as the host uses them. */
module Wrappers {

  datatype Option<+T> = None | Some(value: T)

  datatype Result<+T, +E> = Ok(value: T) | Err(error: E) {

    predicate IsFailure() {
      Err?
    }

    function PropagateFailure<U>(): Result<U, E>
      requires Err?
    {
      Err(error)
    }

    function Extract(): T
      requires Ok?
    {
      value
    }
  }

  /** Appends to a bounded vector: all of `more`, or nothing and the given error. */
  function Extend<T, E>(v: seq<T>, more: seq<T>, capacity: nat, error: E): Result<seq<T>, E> {
    if |v| + |more| <= capacity then Ok(v + more) else Err(error)
  }
}
