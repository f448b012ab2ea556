/** Optional values: `null`/`undefined` in the source, and "no navigation" for a key press that writes nothing. */
module Wrappers {
  datatype Option<+T> = None | Some(value: T)
}
