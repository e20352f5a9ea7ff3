/** Small shared datatypes. */
module Wrappers {

  /** An optional value: JavaScript's `undefined` (or an absent property) is `None`. */
  datatype Option<+T> = None | Some(value: T)
}
