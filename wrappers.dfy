/** Option values: `None` stands for JavaScript's `undefined`, the result of reading past the end of an array. */
module Wrappers {

  datatype Option<+T> = None | Some(value: T)
}
