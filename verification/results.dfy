/** Tagged outcomes returned by every service operation.
    `Result` is the payload-free outcome, `DataResult` carries data on success.
    Both have a third case for a rejected promise: a fault the service does not
    catch (a property read on `null`, a store validation error), which the
    HTTP layer turns into its generic error response. */
module Results {

  datatype Option<+T> = None | Some(value: T)
  {
    /** The carried value, or `default` when there is none. */
    function GetOr(default: T): (v: T)
      ensures Some? ==> v == value
      ensures None? ==> v == default
    {
      match this
      case Some(x) => x
      case None => default
    }
  }

  datatype Result = SuccessResult | ErrorResult(message: string) | Exception(error: string)
  {
    predicate IsSuccess() { SuccessResult? }
  }

  datatype DataResult<+T> = SuccessData(data: T) | ErrorData(message: string) | ExceptionData(error: string)
  {
    predicate IsSuccess() { SuccessData? }
  }

  /** A failed check re-wrapped as a data result with no payload. */
  function Failed<T>(r: Result): (d: DataResult<T>)
    requires !r.IsSuccess()
    ensures r.ErrorResult? ==> d == ErrorData(r.message)
    ensures r.Exception? ==> d == ExceptionData(r.error)
  {
    match r
    case ErrorResult(m) => ErrorData(m)
    case Exception(e) => ExceptionData(e)
  }

  /** Name of the fault raised when code reads a property of `null`/`undefined`. */
  const TypeError: string := "TypeError"
  /** Name of the fault raised when a document misses a required field. */
  const ValidationError: string := "ValidationError"
}
