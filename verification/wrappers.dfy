/** Failure-carrying datatypes shared by every module of the model.
    The source reports failures as Go `error` values or .NET exceptions; the
    model carries the error text. */
module Wrappers {

  datatype Option<+T> = None | Some(value: T)

  /** The outcome of an operation that either yields a value or fails with a message. */
  datatype Result<+T> = Success(value: T) | Failure(error: string) {
    predicate IsFailure() { Failure? }

    function PropagateFailure<U>(): Result<U>
      requires Failure?
    {
      Failure(error)
    }

    function Extract(): T
      requires Success?
    {
      value
    }
  }

  /** A response of the GraphQL store: a transport error, a `null` payload, or the data found. */
  datatype Response<+T> = HttpError(message: string) | Null | Found(data: T)
}
