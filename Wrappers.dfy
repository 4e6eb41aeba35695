/** The optional value used wherever the analyzer yields `None` or a value. */
module Wrappers {

  datatype Option<+T> = None | Some(value: T)
}
