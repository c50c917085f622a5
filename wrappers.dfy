/** Optional values: the model's stand-in for Go's (value, error) pairs
    whose error is turned into a fallback. */
module Wrappers {

  datatype Option<+T> = None | Some(value: T)
}
