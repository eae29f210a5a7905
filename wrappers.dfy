/** Option, Result and the errors the adapter throws.

    Every JavaScript `throw` of the adapter becomes an `Err` carrying one of
    the three error kinds below; nothing is ever retried. */
module Wrappers {

  datatype Option<+T> = None | Some(value: T)

  /** An error raised by the adapter.
      - `Error(message)`: `throw new Error(message)` with the literal message.
      - `ReferenceError(name)`: the message expression reads the undeclared
        variable `name`, so evaluating the message itself throws.
      - `TypeError(property)`: the code reads `property` of `undefined`. */
  datatype Error =
    | Error(message: string)
    | ReferenceError(name: string)
    | TypeError(property: string)

  datatype Result<+T> = Ok(value: T) | Err(error: Error)

  /** The outcome of an operation that only changes state. */
  datatype Outcome = Pass | Fail(error: Error)
}
