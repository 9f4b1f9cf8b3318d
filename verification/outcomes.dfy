/** Failure-carrying result types and the error taxonomy of the secret store. */
module Outcomes {

  /** An optional value (Python's `None` or a value). */
  datatype Option<+T> = None | Some(value: T)

  /** The exceptions the store raises at the charm-facing API. */
  datatype Error =
    | SecretNotFound    // SecretNotFoundError: no such secret, or no such revision
    | PermissionDenied  // ModelError: the caller may not manage this secret
    | RelationNotFound  // the relation named in a grant or revoke is not in the state
    | InvalidEvent      // ValueError: a secret event built for the wrong kind of secret

  /** The outcome of an operation that returns a value. */
  datatype Result<+T> = Ok(value: T) | Err(error: Error)

  /** The outcome of an operation that returns nothing. */
  datatype Outcome = Done | Failed(error: Error)

  /** Overwrites `current` only when a new value is supplied. */
  function Override<T>(current: Option<T>, update: Option<T>): Option<T>
  {
    if update.Some? then update else current
  }
}
