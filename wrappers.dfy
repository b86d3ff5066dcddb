/** The optional-value type shared by every module of the model. */
module Wrappers {

  /** `None` stands for JavaScript's `undefined`, for `NaN` and for a thrown exception, as each module says. */
  datatype Option<+T> = None | Some(value: T)
}
