/** Optional values: an absent dictionary key, or a remark that was never given. */
module Wrappers {

  datatype Option<+T> = None | Some(value: T)
}
