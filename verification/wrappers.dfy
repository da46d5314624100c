/** The Option datatype used wherever the source returns `null` or `-1` for "nothing". */
module Wrappers {

  datatype Option<+T> = None | Some(value: T)
}
