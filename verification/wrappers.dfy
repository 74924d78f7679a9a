/** The optional value used where the engine stores `None` or a value. */
module Wrappers {

  datatype Option<+T> = None | Some(value: T)
}
