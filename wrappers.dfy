/** Optional values, used for buffer slots that may never have been written
    and for allocations that may fail. */
module Wrappers {

  datatype Option<+T> = None | Some(value: T)
}
