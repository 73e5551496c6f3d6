/** The optional value the game uses for "no coordinates given" and "no pending click". */
module Wrappers {
  datatype Option<+T> = None | Some(value: T)
}
