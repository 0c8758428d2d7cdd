/** The optional value used wherever the program may produce `None` or raise `ValueError`. */
module Wrappers {

  datatype Option<+T> = None | Some(value: T)

}
