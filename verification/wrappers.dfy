/** The absent-or-present value that the lookups of the registry return
    (Python's `None` or an object). */
module Wrappers {

  datatype Option<+T> = None | Some(value: T)

}
