/** Optional values, for the places where the screens may or may not act. */
module Wrappers {

  datatype Option<+T> = None | Some(value: T)
}
