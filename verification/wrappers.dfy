/** Optional values, used where the source has a nil reference or an unknown name. */
module Wrappers {

  datatype Option<+T> = None | Some(value: T)

}
