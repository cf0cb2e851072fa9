/** The three ways Swift code in this project reports "a value or nothing / an error":
    Optional, Result, and the outcome of calling a `throws` function. */
module Swift {

  /** Swift's `Optional<T>`: `.none` (nil) or `.some(value)`. */
  datatype Option<+T> = None | Some(value: T)

  /** Swift's `Result<Success, Failure>`. */
  datatype Result<+T, +E> = Success(value: T) | Failure(error: E)

  /** What a call of a `throws` function does: it returns a value or it throws an error. */
  datatype Throws<+T, +E> = Returns(value: T) | Threw(error: E) {

    /** `try? f()`: the returned value, or nil when the call threw (the error is dropped). */
    function OrNil(): (r: Option<T>)
      ensures r.Some? <==> Returns?
      ensures r.Some? ==> r.value == value
    {
      match this
      case Returns(v) => Some(v)
      case Threw(_) => None
    }
  }
}
