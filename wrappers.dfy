/** Optional values, used for "no input this cycle" and for decoders that may fail. */
module Wrappers {

  datatype Option<+T> = None | Some(value: T)
}
