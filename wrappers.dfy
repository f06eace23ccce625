/** Option and exception-carrying outcome types shared by every module. */
module Wrappers {

  datatype Option<+T> = None | Some(value: T)

  /** The result of a Python call that either returns a value or raises an
      exception; `message` is what `str(e)` gives for the exception. */
  datatype Outcome<+T> = Ok(value: T) | Raised(message: string)

  /** `str(ZeroDivisionError)` for a `/` whose operands are Python ints. */
  const DivisionByZero: string := "division by zero"
}
