/** Optional values: TypeScript's `undefined` for an optional field or argument. */
module Wrappers {
  datatype Option<+T> = None | Some(value: T)
}
