/** The nullable values of the player (a `useState<... | null>` cell) as an Option. */
module Wrappers {

  datatype Option<+T> = None | Some(value: T)

}
