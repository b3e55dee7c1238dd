/** The optional value used for "a record was written" versus "nothing was written". */
module Wrappers {

  datatype Option<+T> = None | Some(value: T)
}
