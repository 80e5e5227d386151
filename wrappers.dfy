/**
 * An optional value: `None` stands for a missing value, JavaScript's
 * `undefined` or `null` where the code treats the two alike.
 */
module Wrappers {

  datatype Option<+T> = None | Some(value: T)
}
