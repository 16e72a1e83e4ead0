/** Optional values: a field of a TypeScript record that may be absent. */
module Wrappers {

  datatype Option<+T> = None | Some(value: T)
}
