/** Optional values and fallible results, standing in for the `undefined`/`null`
    fields and thrown errors of the ingestion script. */
module Options {

  /** An optional value: `None` plays the part of `undefined` or `null`. */
  datatype Option<+T> = None | Some(value: T) {

    /** The value if present, otherwise `default` (the `x ?? default` idiom). */
    function GetOr(default: T): T {
      match this
      case Some(v) => v
      case None => default
    }
  }

  /** The outcome of an operation that may throw: `Err` carries the message. */
  datatype Result<+T> = Ok(value: T) | Err(message: string)
}
