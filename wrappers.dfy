/** Python's `None` next to a value: every nullable attribute of the model is an Option. */
module Wrappers {

  datatype Option<+T> = None | Some(value: T)
}
