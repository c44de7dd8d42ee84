/** Optional values, standing for Python's `None` / present value. */
module Wrappers {

  datatype Option<+T> = None | Some(value: T)
}
