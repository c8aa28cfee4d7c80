/** Result types shared by the model. */
module Wrappers {

  datatype Option<+T> = None | Some(value: T)

  /** A Go `(value, error)` pair: either the value, or the error's message. */
  datatype Result<+T> = Ok(value: T) | Err(message: string)

  /** The fate of a call that may end the process: `log.Fatal`, `log.Fatalln`,
      `log.Fatalf` and `panic` never return to the caller, and are modelled
      as `Halted` with the message they report. */
  datatype Outcome<+T> = Returned(value: T) | Halted(message: string)
}
