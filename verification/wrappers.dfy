/** Wrappers shared by the model: an optional value and the outcome of a host
    call, which either carries a value or the host's error. */
module Wrappers {

  datatype Option<+T> = None | Some(value: T) {

    /** Returns the wrapped value, or `default` when there is none. */
    function GetOr(default: T): T {
      match this
      case Some(v) => v
      case None => default
    }
  }

  /** The outcome of a host call: the host's error is passed on unchanged,
      so it is kept as the message the host produced. */
  datatype Result<+T> = Ok(value: T) | Err(error: string)
}
