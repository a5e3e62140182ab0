/** The optional value used wherever the source has `null`, `undefined` or "nothing requested". */
module Wrappers {
  datatype Option<+T> = None | Some(value: T)
}
