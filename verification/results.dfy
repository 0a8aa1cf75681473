/** Failure-compatible wrappers shared by every module of the model.

    The Python code signals failure by raising (a failed `assert`, a
    `ValueError`, an `AttributeError` on `None`, a `StopIteration`); here each
    of those becomes a `Fail` carrying one of the `Error` kinds below. */
module Results {

  /** An optional value: Python's `Optional[T]`, `None` being absence. */
  datatype Option<+T> = None | Some(value: T)

  /** The ways an operation of the core can fail. */
  datatype Error =
    | MalformedDocument(reason: string)  // a decoder's assertion failed
    | NaiveTimestamp                     // a datetime without time zone where one is required
    | InvalidTime                        // an hour out of range, or an unparsable time of day
    | NoForecastAvailable                // no time step at or after the requested instant
    | MissingSummaryWindow               // the chosen step has no `next_12_hours`
    | EmptyTimeseries                    // indexing the first step of an empty series

  /** Either a value or the error that stopped its computation. */
  datatype Result<+T> = Ok(value: T) | Fail(error: Error) {

    predicate IsFailure() {
      Fail?
    }

    function PropagateFailure<U>(): Result<U>
      requires Fail?
    {
      Fail(error)
    }

    function Extract(): T
      requires Ok?
    {
      value
    }
  }
}
