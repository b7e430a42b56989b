/** Java's nullable references, written out: `None` stands for `null`. */
module Wrappers {
  datatype Option<+T> = None | Some(value: T)
}
