/** Optional values, shared by the dispatcher and the configuration model. */
module Wrappers {

  datatype Option<+T> = None | Some(value: T)
}
