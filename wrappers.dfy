/** Optional values: the viewer's `center` argument may be absent. */
module Wrappers {
  datatype Option<+T> = None | Some(value: T)
}
