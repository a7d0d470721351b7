/** An optional value: the model's stand-in for JavaScript's `null`, `undefined` and `''` placeholders. */
module Wrappers {
  datatype Option<+T> = None | Some(value: T)
}
