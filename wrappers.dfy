/** The optional value used where the game holds "something or None". */
module Wrappers {

  datatype Option<+T> = None | Some(value: T)
}
