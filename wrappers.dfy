/** Optional values: JavaScript's `undefined` results of optional chaining. */
module Wrappers {

  datatype Option<+T> = None | Some(value: T)
}
