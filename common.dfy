/** Small value types shared by the client and the server model. */
module Common {

  /** A value that may be absent: JavaScript `null`/`undefined`, Python `None`. */
  datatype Option<+T> = None | Some(value: T) {
    function GetOr(default: T): T {
      match this
      case Some(v) => v
      case None => default
    }
  }

  /** The outcome of a call that can fail: a response body or an error. */
  datatype Result<+T, +E> = Ok(value: T) | Err(error: E)

  /** Truthiness of a nullable string, in both JavaScript (`if (token)`) and
      Python (`if output_text:`): absent and empty are false. */
  predicate Truthy(s: Option<string>) {
    s.Some? && s.value != ""
  }
}
