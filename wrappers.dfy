/** Small result types shared by the modules of the relay model. */
module Wrappers {

  /** A value that may be absent; `None` stands for JavaScript's `undefined`. */
  datatype Option<+T> = None | Some(value: T)

  /** The completion of a JavaScript call: it returns a value or it throws. */
  datatype Completion<+T> = Normal(value: T) | Throw(exception: string)
}
