/** The optional and fallible values of the payment model.
    - Option<T>: a value that may be absent (a nullable column, an omitted field).
    - Result<T, E>: a successful value or a typed error (a raised ValueError). */
module Results {

  datatype Option<+T> = None | Some(value: T) {

    /** The value, or `default` when absent (Python's `x if x is not None else default`). */
    function GetOr(default: T): T {
      match this
      case Some(v) => v
      case None => default
    }
  }

  datatype Result<+T, +E> = Ok(value: T) | Err(error: E)
}
