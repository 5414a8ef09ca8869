/** Optional values: the model's stand-in for a Python field that may hold `None`. */
module Wrappers {
  datatype Option<+T> = None | Some(value: T)
}
