/** Small failure-carrying datatypes shared by the whole model. */
module Wrappers {

  /** A value that may be absent: a stored string or JavaScript `null`. */
  datatype Option<+T> = None | Some(value: T)

  /** The settlement of one awaited native call: it returns a value, or it
      raises an error whose message text is kept. */
  datatype Reply<+T> = Ok(value: T) | Raise(message: string)
}
