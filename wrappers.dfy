/** Option and Result values used across the model. Go's `(value, error)` pairs
    become `Result`; an error is represented by its message text, as the
    source only ever wraps, logs and forwards error messages. */
module Wrappers {

  datatype Option<+T> = None | Some(value: T)

  datatype Result<+T> = Ok(value: T) | Err(msg: string) {
    predicate IsFailure() { Err? }

    function PropagateFailure<U>(): Result<U>
      requires Err?
    {
      Err(msg)
    }

    function Extract(): T
      requires Ok?
    {
      value
    }
  }
}
