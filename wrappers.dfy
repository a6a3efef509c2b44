/** The optional value used wherever the source returns Python's `None`
    for a reading or a parse that raised. */
module Wrappers {

  datatype Option<+T> = None | Some(value: T)
}
