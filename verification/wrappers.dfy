/** The optional value used wherever the source passes `None` or an object. */
module Wrappers {

  datatype Option<+T> = None | Some(value: T)
}
