/** Option and Result values shared by every module of the model, and the
    value that stands for a Rust `panic!` (the process stops with a message). */
module Common {

  datatype Option<T> = None | Some(value: T) {

    /** `unwrap_or`: the carried value, or the default when there is none. */
    function GetOr(default: T): T {
      match this
      case Some(v) => v
      case None => default
    }
  }

  datatype Result<T, E> = Success(value: T) | Failure(error: E)

  /** A `panic!` of the source: the command aborts and prints `message`. */
  datatype Fatal = Fatal(message: string)
}
