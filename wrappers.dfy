/** The one optional-value type the model needs: `None` stands for a JavaScript
    `undefined` (or `null`), `Some(v)` for a value that is there. */
module Wrappers {

  datatype Option<+T> = None | Some(value: T)
}
