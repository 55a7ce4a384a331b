/** The usual optional value, standing for JavaScript's `undefined` result of `Array.prototype.find`. */
module Wrappers {
  datatype Option<+T> = None | Some(value: T)
}
