/** The Option datatype used for nullable loads and reverting contract calls. */
module Wrappers {
  datatype Option<+T> = None | Some(value: T)
}
