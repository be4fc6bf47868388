/** Small failure-carrying datatypes shared by the modules of this model. */
module Wrappers {

  /** An optional value, Python's `None` or a value. */
  datatype Option<+T> = None | Some(value: T)

  /** The outcome of a call into code outside the model (the Accessibility
      API, the completion service, the clipboard): either it returned a value
      or it raised an exception carrying a message. */
  datatype Call<+T> = Returned(value: T) | Raised(message: string)
}
