/** The Option datatype shared by the modules of this model: JavaScript's
    `null`/`undefined` for an absent value. */
module Wrappers {
  datatype Option<+T> = None | Some(value: T)
}
