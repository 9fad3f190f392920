/** Values shared by every part of the aggregator model: optional values,
    results, the errors the program returns, instants in time and the
    outcome of running a piece of code that may panic. */
module Common {

  datatype Option<+T> = None | Some(value: T)

  datatype Result<+T> = Success(value: T) | Failure(error: Error)

  /** An instant, as nanoseconds since the zero time of Go's `time.Time`
      (January 1, year 1, UTC). Only equality is ever used. */
  datatype Time = Time(nanos: int)

  /** The zero value `time.Time{}`. */
  const ZeroTime: Time := Time(0)

  /** The errors the program returns. */
  datatype Error =
    | Usage(message: string)    // errors.New("usage: ...") from an argument check
    | UserExists                // errors.New("user already exists")
    | NoRows                    // sql.ErrNoRows: a single-row query found nothing
    | PqError(code: string)     // *pq.Error carrying PostgreSQL's SQLSTATE code
    | StoreFailure              // any other database failure (connection, constraint, ...)
    | ConfigWriteFailure        // the config file could not be written
    | FetchFailure              // building the request, transport, body read or XML decode failed
    | BadDuration               // time.ParseDuration rejected the interval
    | LimitNotInteger           // errors.New("limit must be an integer, ...")
    | UnfamiliarTimeFormat      // errors.New("unfamiliar time format")

  /** How a call ends: it returns an error value (nil is `None`), or it
      panics (a nil function call, a nil pointer dereference). */
  datatype Outcome = Return(err: Option<Error>) | Panic(reason: string)

  /** The runtime error of a nil pointer dereference. */
  const NilDereference := "invalid memory address or nil pointer dereference"
  /** A call through a nil func value is reported as the same runtime error. */
  const NilFunctionCall := NilDereference
}
