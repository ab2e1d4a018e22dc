/** Optional values: an element that may be absent from the page, a scroll request that may not be issued. */
module Wrappers {

  datatype Option<+T> = None | Some(value: T)
}
