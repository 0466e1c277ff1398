/** The optional-value wrapper used for values that may be absent. */
module Wrappers {

  /** Some value, or none at all (JavaScript's `undefined` where a value is optional). */
  datatype Option<+T> = None | Some(value: T)
}
