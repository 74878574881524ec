/** A nullable value: `T | null` in the page's types. */
module Wrappers {
  datatype Option<T> = None | Some(value: T)
}
