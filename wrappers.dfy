/** Optional values: `None` stands for a missing value (for amounts: NaN). */
module Wrappers {

  datatype Option<+T> = None | Some(value: T)
}
