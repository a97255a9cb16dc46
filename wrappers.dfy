/** Optional values, for a conversion that may fail and a store that may be missing. */
module Wrappers {

  datatype Option<T> = None | Some(value: T)
}
