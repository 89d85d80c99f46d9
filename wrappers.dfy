/** Optional values, for a sample that decodes to no key. */
module Wrappers {

  datatype Option<+T> = None | Some(value: T)
}
