/** Optional values, used where the program's lookups and pattern searches may find nothing. */
module Wrappers {
  datatype Option<+T> = None | Some(value: T)
}
