/** Optional values, used where the source has a nullable reference or returns null. */
module Wrappers {

  datatype Option<+T> = None | Some(value: T)
}
