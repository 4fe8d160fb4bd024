/** Presence or absence of a value: Python's `None` versus a value. */
module Wrappers {

  datatype Option<+T> = None | Some(value: T)
}
