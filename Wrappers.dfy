/** An optional value: a JavaScript field or argument that may be `undefined`. */
module Wrappers {

  datatype Option<+T> = None | Some(value: T)
}
