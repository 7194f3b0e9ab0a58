/** Option and Result: the absent values and the raised exceptions of the
    modelled Python code, made explicit. */
module Wrappers {

  datatype Option<+T> = None | Some(value: T) {

    /** Python truthiness of an optional value: `None` is falsy. */
    predicate IsSome() { Some? }

    function GetOr(default: T): T {
      match this
      case Some(v) => v
      case None => default
    }
  }

  /** A value or the message of the exception that was raised instead. */
  datatype Result<+T> = Ok(value: T) | Err(error: string) {

    predicate IsFailure() { Err? }

    function PropagateFailure<U>(): Result<U>
      requires Err?
    {
      Err(error)
    }

    function Extract(): T
      requires Ok?
    {
      value
    }
  }
}
