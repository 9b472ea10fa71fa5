/** Optional values: the model's stand-in for Java's null. */
module Wrappers {

  datatype Option<+T> = None | Some(value: T)
}
