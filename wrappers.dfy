/** Failure-carrying values shared by every module of the model. */
module Wrappers {

  datatype Option<+T> = None | Some(value: T)

  /** The exceptions the modelled code can raise, by the name the source runtime gives them. */
  datatype Error =
    | KeyError(key: string)
    | IndexError
    | ValueError(message: string)
    | TypeError
    | ArrayIndexOutOfBounds(index: int)
    | StringIndexOutOfBounds
    | NumberFormat(text: string)
    | IllegalArgument
    | NullPointer
    | RuntimeError(message: string)
    | ZeroDivisionError

  datatype Result<+T> = Ok(value: T) | Err(error: Error)
}
