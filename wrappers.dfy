/** Optional values, standing for a dictionary or JSON lookup that may find nothing. */
module Wrappers {

  datatype Option<+T> = None | Some(value: T)
}
