// Optional values and outcomes shared by every module of the model.
module Wrappers {

  datatype Option<T> = None | Some(value: T)

  /** Outcome of an operation that the engine guards with an assertion:
      `Fatal` means the assertion fires and the program stops there. */
  datatype Result<T> = Ok(value: T) | Fatal(reason: string)
}
