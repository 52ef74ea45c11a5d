/** Java's nullable references, written as an explicit option. */
module Wrappers {

  /** `None` stands for a Java `null`. */
  datatype Option<+T> = None | Some(value: T)
}
