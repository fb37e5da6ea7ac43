/** Optional values and operation outcomes shared by the model: a value that may be absent
    (JavaScript's `null`/`undefined`) and the outcome of an operation that may throw. */
module Wrappers {

  datatype Option<+T> = None | Some(value: T)

  /** `Pass` is a normal return; `Fail(e)` is a thrown error carrying its message. */
  datatype Outcome<+E> = Pass | Fail(error: E)
}
