/** Optional values: JavaScript's `null` / `undefined` slots in the model. */
module Wrappers {

  datatype Option<+T> = None | Some(value: T)
}
