/** An optional value: JavaScript's `undefined`-or-value, and lookups that may miss. */
module Wrappers {

  datatype Option<T> = None | Some(value: T)
}
