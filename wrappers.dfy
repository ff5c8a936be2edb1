/** Optional values: a nullable database column or an absent query parameter. */
module Wrappers {

  datatype Option<+T> = None | Some(value: T)
}
