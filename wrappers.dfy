/** The optional-value type shared by the other modules. */
module Wrappers {

  /** `None` stands for JavaScript's `null`/`undefined` wherever the source reads
      something that may be missing. */
  datatype Option<+T> = None | Some(value: T)
}
