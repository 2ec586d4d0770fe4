/** The optional value used across the model: `None` stands for
    JavaScript's `undefined`/`null` results and for "this step throws". */
module Wrappers {
  datatype Option<+T> = None | Some(value: T)
}
