/** The optional value used where the sketch leaves a JavaScript variable `null`. */
module Wrappers {
  datatype Option<+T> = None | Some(value: T)
}
