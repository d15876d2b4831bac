/** Optional values, used for the number parser that may reject a token. */
module Wrappers {
  datatype Option<+T> = None | Some(value: T)
}
