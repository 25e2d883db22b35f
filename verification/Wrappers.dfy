/** Types shared by the other modules. */
module Wrappers {
  datatype Option<+T> = None | Some(value: T)

  type Positive = n: int | 1 <= n witness 1
}
