/** Identifiers, clock readings and the failure-carrying wrappers shared by every module. */
module Common {

  /** An optional value: a nullable column, or a request field that may be absent. */
  datatype Option<T> = None | Some(value: T)
  {
    /** The value, or `default` when there is none (Python's `dict.get(key, default)`). */
    function GetOr(default: T): T {
      if Some? then value else default
    }
  }

  /** What a view answers: a value, or the error it responds with. */
  datatype Result<T, E> = Ok(value: T) | Err(error: E)

  /** Primary key of a user row. */
  type UserId = nat

  /** A reading of the server clock (`timezone.now()`); the clock is an input to the model. */
  type Time = int
}
