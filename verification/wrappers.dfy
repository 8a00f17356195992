/** Optional values, for the fields and results that Python represents as `None`. */
module Wrappers {

  datatype Option<+T> = None | Some(value: T)
}
