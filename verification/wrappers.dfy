/** The optional value used wherever the application holds `T | null`. */
module Wrappers {

  /** `None` plays the role of `null` (and of `undefined` after `?.`). */
  datatype Option<+T> = None | Some(value: T)
}
