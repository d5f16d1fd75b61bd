/** Value types shared by the rest of the model. */
module Wrappers {

  /** A Java reference that may be `null`: `None` stands for `null`. */
  datatype Option<+T> = None | Some(value: T)

  /** The outcome of a call into code outside this model (the host runtime or the
      AWS SDK): it either returns a value or throws an exception with a message. */
  datatype Attempt<+T> = Returned(value: T) | Threw(message: string)
}
