/** The optional value used for the stat fields that may fail to parse and
    for the probable-pitcher ids that the game feed may lack. */
module Wrappers {

  datatype Option<+T> = None | Some(value: T)
}
