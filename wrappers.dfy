/** Optional values: a PHP `null` or an absent file, next to a present value. */
module Wrappers {
  datatype Option<+T> = None | Some(value: T)
}
