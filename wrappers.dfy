/** Optional values: a fetch that failed, a JSON field that is absent. */
module Wrappers {

  datatype Option<+T> = None | Some(value: T)
}
