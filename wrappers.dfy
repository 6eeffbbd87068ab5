/** Optional values, used for headers that may be absent and for nullable references. */
module Wrappers {

  datatype Option<+T> = None | Some(value: T)
}
