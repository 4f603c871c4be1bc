/** The optional value used throughout: `None` stands for the source's
    `null` or a missing field. */
module Wrappers {

  datatype Option<+T> = None | Some(value: T)
}
