/** The optional-value type used for the source's `?:` fields, `undefined` and NaN results. */
module Wrappers {
  datatype Option<T> = None | Some(value: T)
}
