/** Success and failure values shared by the modules of the model. */
module Outcomes {

  datatype Option<+T> = None | Some(value: T)

  /** The ways a request can fail inside the server once a query is present. */
  datatype Fault =
    | TypeError           // a property read on `null` (server.js line 85 when the parsed parameters are null)
    | CastError           // the store refuses a filter whose operand has the wrong type
    | StorageUnavailable  // the store cannot be reached

  /** A computation that either yields a value or throws a `Fault`. */
  datatype Result<+T> = Success(value: T) | Failure(error: Fault) {
    predicate IsFailure() { Failure? }

    function PropagateFailure<U>(): Result<U>
      requires Failure?
    {
      Failure(error)
    }

    function Extract(): T
      requires Success?
    {
      value
    }
  }

  /** What an external collaborator (the language model, the JSON parser) hands back:
      a value, or a rejected promise whose reason the server never inspects. */
  datatype Outcome<+T> = Ok(value: T) | Failed
}
