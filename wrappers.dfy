/** The usual optional-value datatype; `None` stands for the source's null pointers and null handles. */
module Wrappers {
  datatype Option<+T> = None | Some(value: T)
}
