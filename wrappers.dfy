/** Optional values, used for the tensor cache and for steps that can raise. */
module Wrappers {

  datatype Option<+T> = None | Some(value: T)

}
