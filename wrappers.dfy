/**
 * Option and Result, the two wrappers every modelled component returns:
 * Rust's `Option<T>` and `Result<T, E>`.
 */
module Wrappers {

  datatype Option<T> = None | Some(value: T)

  datatype Result<T, E> = Ok(value: T) | Err(error: E)
  {
    /** Rust's `Result::ok`: the success value, the error discarded. */
    function ToOption(): (o: Option<T>)
      ensures o.Some? <==> this.Ok?
      ensures o.Some? ==> o.value == this.value
    {
      match this
      case Ok(v) => Some(v)
      case Err(_) => None
    }
  }
}
