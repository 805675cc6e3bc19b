/** Nullable references and exception-carrying results, shared by every module. */
module Results {

  /** A C# reference that may be `null` (`None`). */
  datatype Option<+T> = None | Some(value: T) {
    /** The `??` operator: the value, or `default` when null. */
    function GetOr(default: T): T {
      if Some? then value else default
    }
  }

  /** The outcome of a C# call that either returns a value or throws `error`. */
  datatype Result<+T, +E> = Success(value: T) | Failure(error: E)
}
