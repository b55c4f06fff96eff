/** Optional values, used where the modelled program may have nothing to return. */
module Wrappers {

  datatype Option<+T> = None | Some(value: T)
}
