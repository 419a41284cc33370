/** Optional values: an absent TypeScript argument, a failed HTTP response. */
module Wrappers {

  datatype Option<+T> = None | Some(value: T)

}
