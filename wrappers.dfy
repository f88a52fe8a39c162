/** The optional value that stands for JavaScript's `null` (or an absent property). */
module Wrappers {
  datatype Option<+T> = None | Some(value: T)
}
