/** The usual optional-value datatype: `None` stands for JavaScript's `null`,
    `NaN` or a call that throws, depending on where it is used. */
module Wrappers {
  datatype Option<+T> = None | Some(value: T)
}
