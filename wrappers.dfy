/** Optional values, used wherever the source has `null`, `NaN` or an absent result. */
module Wrappers {
  datatype Option<+T> = None | Some(value: T)
}
