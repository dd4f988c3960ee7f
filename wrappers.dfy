/** The optional value used wherever the editor holds `null` or a value. */
module Wrappers {

  datatype Option<+T> = None | Some(value: T)
}
