/** Error-carrying values used throughout the model: Go's `(T, error)` pairs
    become `Result<T>`, a bare `error` becomes `Outcome`, and nil references
    become `Option`. Error texts are kept as strings because the source
    reports them verbatim to its callers. */
module Results {

  datatype Option<+T> = None | Some(value: T)

  datatype Result<+T> = Ok(value: T) | Err(msg: string)

  datatype Outcome = Pass | Fail(msg: string)

  /** The error text of a `Result`, or "" when there is none. */
  function ErrText<T>(r: Result<T>): string
  {
    if r.Err? then r.msg else ""
  }
}
