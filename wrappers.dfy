/** Optional values, used for absent keys, absent segments and absent claims. */
module Wrappers {

  datatype Option<+T> = None | Some(value: T)
}
