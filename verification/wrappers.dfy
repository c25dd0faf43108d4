/** The Some/None datatype used wherever the source yields `null`,
    `undefined` or `NaN` instead of a value. */
module Wrappers {

  datatype Option<+T> = None | Some(value: T)
}
