/** How an operation of the interpreter front end ends. */
module Outcomes {

  /** `Ok` carries the value the source returns; `Err` is a Rust `Err(..)` value the source
      returns to its caller; `Panic` is a Rust panic (an `unwrap` on a failure, `todo!()`),
      which ends the program; `Hang` marks a call that, in the source, never returns. */
  datatype Outcome<+T> = Ok(value: T) | Err(error: string) | Panic(reason: string) | Hang
}
