/** The optional value used throughout the model: a JavaScript `null`/`undefined` is `None`. */
module Wrappers {
  datatype Option<+T> = None | Some(value: T)
}
