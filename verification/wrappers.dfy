/** Option; None where the source raises an exception instead of returning. */
module Wrappers {

  datatype Option<+T> = None | Some(value: T)

}
