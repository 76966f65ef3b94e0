/** Error values and the two shapes of fallible results used throughout the pipeline. */
module Failures {

  /** The errors the pipeline can observe.  The first three are the sentinel
      errors of the document store; the others stand for errors raised by
      collaborators whose internals are not modelled. */
  datatype Error =
    | OptimisticLock                          // no document matched kind, name and version
    | NotFound                                // no document matched kind and name
    | DocumentExists                          // the unique (kind, name) index rejected an insert
    | Transport                               // any other error reported by the database driver
    | NumError                                // strconv.ParseInt rejected its input
    | JsonError                               // encoding/json could not decode a body
    | Wrapped(context: string, cause: Error)  // fmt.Errorf("<context>: %w", cause)

  /** A value that may be absent. */
  datatype Option<T> = None | Some(value: T)

  /** A value or an error, as a Go function returning `(T, error)`. */
  datatype Result<T> = Ok(value: T) | Err(error: Error)

  /** Success or an error, as a Go function returning only `error`. */
  datatype Outcome = Success | Failure(error: Error)

  /** Strips the one layer of context a caller added with `%w`. */
  function Unwrap(r: Outcome): (u: Outcome)
    ensures u.Success? <==> r.Success?
    ensures r.Failure? && r.error.Wrapped? ==> u == Failure(r.error.cause)
  {
    if r.Failure? && r.error.Wrapped? then Failure(r.error.cause) else r
  }
}
