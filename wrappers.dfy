/** Optional values, used where the source has a nullable Kotlin type. */
module Wrappers {
  datatype Option<+T> = None | Some(value: T)
}
