/** Result and option types shared by every module, and the ways the Rust
    program can abort instead of returning. */
module Wrappers {
  datatype Option<T> = None | Some(value: T)

  /** A Rust `Result`; `:-` propagates an `Err` like Rust's `?`. */
  datatype Result<T, E> = Ok(value: T) | Err(error: E)
  {
    predicate IsFailure() { Err? }

    function PropagateFailure<U>(): Result<U, E>
      requires Err?
    {
      Err(error)
    }

    function Extract(): T
      requires Ok?
    {
      value
    }
  }

  /** Why a Rust debug build stops: unsigned arithmetic leaving its range,
      a slice or array index past its end, or a remainder by zero. The model
      turns each such abort into an explicit outcome instead of wrapping the
      value. */
  datatype Panic = ArithmeticOverflow | IndexOutOfBounds | DivisionByZero
}
