/** Failure-carrying datatypes shared by every module of the model. */
module Wrappers {

  /** Rust's `Option<T>`. */
  datatype Option<+T> = None | Some(value: T)

  /** Rust's `Result<T, E>`. */
  datatype Result<+T, +E> = Ok(value: T) | Err(error: E) {

    /** `Result::map_err`: apply `f` to an error, leave a success alone. */
    function MapErr<E2>(f: E -> E2): (r: Result<T, E2>)
      ensures Ok? <==> r.Ok?
      ensures Ok? ==> r.value == value
      ensures Err? ==> r.error == f(error)
    {
      match this
      case Ok(t) => Ok(t)
      case Err(e) => Err(f(e))
    }
  }

  /**
   * The outcome of a call that may panic. A panic is not control flow here:
   * it is the value `Panicked`, carrying the message Rust would print.
   */
  datatype Outcome<+R> = Returned(value: R) | Panicked(message: string)
}
