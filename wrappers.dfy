/** The optional value the brain's evaluator returns (Swift's `Double?`). */
module Wrappers {

  datatype Option<+T> = None | Some(value: T)
}
