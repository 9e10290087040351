/** Optional values: a TypeScript field that may be `undefined`. */
module Options {

  datatype Option<T> = None | Some(value: T) {

    /** The value, or `default` when absent (the `a ?? b` of the source). */
    function GetOr(default: T): (r: T)
      ensures Some? ==> r == value
      ensures None? ==> r == default
    {
      match this
      case Some(v) => v
      case None => default
    }
  }

  /** The outcome of an operation the source can refuse by throwing an `Error` with a message. */
  datatype Result<T> = Ok(value: T) | Err(message: string)
}
