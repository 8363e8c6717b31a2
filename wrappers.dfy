/** Optional values, used for the persisted high-score record and for parse results. */
module Wrappers {

  datatype Option<+T> = None | Some(value: T)
}
