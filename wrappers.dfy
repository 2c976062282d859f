/** Optional values, for the nullable fields and properties of the site's components. */
module Wrappers {

  datatype Option<+T> = None | Some(value: T)
}
