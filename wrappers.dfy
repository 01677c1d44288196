/** Optional values: the `field?: number` members of the source's records. */
module Wrappers {

  datatype Option<+T> = None | Some(value: T)
}
