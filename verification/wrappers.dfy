/** The optional value used wherever the library either produces a result
    or reports that there is none. */
module Wrappers {

  datatype Option<+T> = None | Some(value: T)
}
