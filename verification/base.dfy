/** Errors and the failure-compatible wrappers shared by the whole model.

    A Go function that returns only an `error` returns `Option<Error>` here
    (`None` for nil), and one that returns a value with an `error` returns
    `Result<T>`. Error values are compared exactly, not just for presence.
 */
module Base {

  /** The error values the client pipeline can return. Errors produced by
      collaborators whose bodies are not modelled are `Failure`s carrying
      whatever reason the collaborator chose. */
  datatype Error =
    | Failure(reason: string)
      /** `errors.WithMessage(cause, message)`: the cause, annotated. */
    | WithMessage(cause: Error, message: string)
      /** The package-level sentinel `API_NOT_FOUND` ("not found client"). */
    | ApiNotFound

  datatype Option<+T> = None | Some(value: T)

  datatype Result<+T> = Ok(value: T) | Err(error: Error) {

    predicate IsFailure() {
      Err?
    }

    function PropagateFailure<U>(): Result<U>
      requires Err?
    {
      Err(error)
    }

    function Extract(): T
      requires Ok?
    {
      value
    }

    /** The value, forgetting the error. */
    function ToOption(): (o: Option<T>)
      ensures o.Some? <==> Ok?
      ensures o.Some? ==> o.value == value
    {
      match this
      case Ok(v) => Some(v)
      case Err(_) => None
    }

    /** The error as a Go `error`: nil on success. */
    function ErrorOption(): (o: Option<Error>)
      ensures o.Some? <==> Err?
      ensures o.Some? ==> o.value == error
    {
      match this
      case Ok(_) => None
      case Err(e) => Some(e)
    }
  }
}
