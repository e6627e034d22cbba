/** The optional value used wherever the game returns `None` for "not found". */
module Wrappers {

  datatype Option<+T> = None | Some(value: T)
}
