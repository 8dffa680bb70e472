/** Optional values: JavaScript's `undefined` / `null` alternatives and lookups that may miss. */
module Wrappers {

  datatype Option<+T> = None | Some(value: T)
}
