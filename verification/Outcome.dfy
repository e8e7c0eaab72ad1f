/** Optional values and the outcome of an operation that may be refused. */
module Outcome {

  datatype Option<+T> = None | Some(value: T)

  /** Why an operation was refused; a refused transaction leaves no trace. */
  datatype Error =
    | NotFound
    | Forbidden
    | Invalid
    | Conflict
    | Unavailable
    | Insufficient
    | DuplicateReference

  datatype Result<+T> = Ok(value: T) | Err(error: Error) {
    predicate IsFailure() {
      Err?
    }

    function PropagateFailure<U>(): Result<U>
      requires Err?
    {
      Err(error)
    }

    function Extract(): T
      requires Ok?
    {
      value
    }
  }
}
