/** The optional value used wherever the source keeps a reference that may be null. */
module Wrappers {

  /** `None` stands for a Java `null`, `Some(v)` for a present value. */
  datatype Option<+T> = None | Some(value: T)
}
