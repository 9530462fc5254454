/** Failure-carrying values shared by every module of the model. */
module Wrappers {

  /** A value that may be absent (a JavaScript `null` / `undefined`). */
  datatype Option<+T> = None | Some(value: T) {
    function GetOr(default: T): T {
      match this
      case Some(v) => v
      case None => default
    }
  }

  /** The outcome of an operation that either yields a value or throws. */
  datatype Result<+T, +E> = Ok(value: T) | Err(error: E)
}

/** Row identifiers. The source uses UUIDs; the model only needs them to be distinct. */
module Ids {
  type Id = nat
}
