/** Small value wrappers shared by every module of the model. */
module Base {

  /** A value that may be absent (JavaScript `null`/`undefined`). */
  datatype Option<+T> = None | Some(value: T) {
    function GetOr(default: T): T
    {
      match this
      case Some(v) => v
      case None => default
    }
  }

  /** The outcome of an awaited call into code outside the model: either the
      value it resolved to, or the message of the exception it threw. */
  datatype Fetch<+T> = Returned(value: T) | Threw(message: string)
}
