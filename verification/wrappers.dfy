/** Optional values, results and the outcome of an awaited call.

The application throws a single kind of failure, a plain error that carries a
message, so there is one `Error` shape rather than a taxonomy.
 */
module Wrappers {

  /** A value that may be absent (`undefined` or `null` in the application). */
  datatype Option<+T> = None | Some(value: T)

  /** The plain error the application throws. */
  datatype Error = Error(message: string)

  /** Either the value an operation produced or the error it threw. */
  datatype Result<+T> = Ok(value: T) | Err(error: Error)

  /** How an awaited call into an external service settled: it resolved, or it
      threw. A thrown value that is an `Error` carries its message; any other
      thrown value carries none. */
  datatype Outcome = Succeeded | Threw(message: Option<string>)

  /** `err instanceof Error ? err.message : fallback`: the text shown for a
      failed call. */
  function MessageOr(o: Outcome, fallback: string): (text: string)
    requires o.Threw?
    ensures o.message.Some? ==> text == o.message.value
    ensures o.message.None? ==> text == fallback
  {
    match o.message
    case Some(m) => m
    case None => fallback
  }
}
