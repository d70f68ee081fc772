/** The optional result used wherever the source returns `None` for "no value". */
module Wrappers {
  datatype Option<+T> = None | Some(value: T)
}
