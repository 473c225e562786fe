/** The optional-value wrapper shared by the layout and form modules. */
module Wrappers {

  /** A value that may be missing. For a field's `type` and `width`, `None` is `undefined` or `null`, which the code treats alike. */
  datatype Option<+T> = None | Some(value: T)
}
