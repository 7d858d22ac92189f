/** Optional values, standing in for Java's nullable column values. */
module Wrappers {

  datatype Option<+T> = None | Some(value: T)
}
