/** Optional values: Python's `None` versus a present value (a nullable
    column, an absent query parameter, a missing lookup). */
module Wrappers {

  datatype Option<+T> = None | Some(value: T)
}
