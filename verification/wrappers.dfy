/** Option and Result, the two wrappers the rest of the model uses for
    JavaScript's `null`/`undefined` and for thrown or returned errors, and
    the shape of a caught value. */
module Wrappers {

  datatype Option<+T> = None | Some(value: T) {
    /** The value, or `default` when there is none (JavaScript's `x ?? d`). */
    function GetOr(default: T): T {
      match this
      case Some(v) => v
      case None => default
    }
  }

  datatype Result<+R, +E> = Ok(value: R) | Err(error: E)

  /** A nullable id that is truthy: present and not the empty string. */
  predicate IsSet(id: Option<string>) {
    id.Some? && id.value != ""
  }

  /** A value caught by a `catch`: an `Error` instance with its message, or
      anything else. */
  datatype Thrown = ErrorInstance(message: string) | OtherValue

  /** `err instanceof Error ? err.message : fallback`. */
  function MessageOf(e: Thrown, fallback: string): string {
    match e
    case ErrorInstance(msg) => msg
    case OtherValue => fallback
  }
}
