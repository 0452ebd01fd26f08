/** Option and Result, the two wrapper types the rest of the model uses for
    nullable fields and for operations that can fail. */
module Wrappers {

  /** A nullable value: a field declared `null=True`, a missing key, an absent request. */
  datatype Option<+T> = None | Some(value: T)

  /** The outcome of an operation that can raise. */
  datatype Result<+T, +E> = Ok(value: T) | Err(error: E) {

    predicate IsFailure() {
      Err?
    }

    function PropagateFailure<U>(): Result<U, E>
      requires Err?
    {
      Err(error)
    }

    function Extract(): T
      requires Ok?
    {
      value
    }
  }
}
