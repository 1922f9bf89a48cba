/** The optional value used for JavaScript fields that start out `undefined`. */
module Wrappers {

  datatype Option<+T> = None | Some(value: T)
}
