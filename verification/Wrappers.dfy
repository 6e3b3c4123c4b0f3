/** The one failure-free container the modules share: a value that may be absent. */
module Wrappers {
  datatype Option<+T> = None | Some(value: T)
}
