/** The Python exceptions the secrets inventory worker tells apart, and the
    wrappers through which the model returns them instead of raising. */
module Outcomes {

  datatype Option<+T> = None | Some(value: T)

  /** The exception classes that the worker's `except` clauses distinguish,
      plus the ones the Python runtime raises on the worker's own lookups. */
  datatype Exception =
    | EndpointConnectionError          // botocore: the service has no endpoint in this region
    | AssumeRoleError                  // the cross-account role could not be assumed
    | ClientError(code: string)        // botocore: the service answered with an error
    | KeyError(key: string)            // a dict lookup of a key that is absent
    | UnboundLocalError(name: string)  // a local variable read before it was bound
    | OtherError(kind: string)         // any other class (decode errors, ...)

  /** The outcome of a call that either returns a value or raises. */
  datatype Result<+T> = Ok(value: T) | Raised(exc: Exception)
}
