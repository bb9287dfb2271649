/** Failure-carrying values shared by the backend and front-end modules. */
module Common {

  datatype Option<+T> = None | Some(value: T) {
    function GetOr(default: T): T {
      match this
      case Some(v) => v
      case None => default
    }
  }

  /** A Python call either returns a value or raises. */
  datatype Result<+T, +E> = Ok(value: T) | Err(error: E)

  /** The two kinds of exception the backend services raise. */
  datatype Raised = ValueError(message: string) | Exception(message: string)

  /** JavaScript truthiness of a value that is a string or null: null and "" are falsy. */
  predicate Truthy(s: Option<string>) {
    s.Some? && s.value != ""
  }
}
