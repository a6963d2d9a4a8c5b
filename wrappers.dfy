/** Failure-carrying datatypes shared by the modules of the launcher model. */
module Wrappers {

  /** A value that may be absent; also stands for a Go reference that may be nil. */
  datatype Option<+T> = None | Some(value: T)

  /** How a Go call ends: with a value, with an error text it returns, or with a panic. */
  datatype Outcome<+T> = Ok(value: T) | Err(message: string) | Panic(reason: string)
}
