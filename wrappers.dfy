/** Small optional-value datatypes shared by every module of the model. */
module Wrappers {

  /** A value that may be absent: JavaScript's `null`. */
  datatype Option<+T> = None | Some(value: T)

  /** A request-body field: `Absent` is a key the client did not send (`undefined`),
      `Given(v)` a key that was sent, whose value may itself be `null` when T is an Option. */
  datatype Field<+T> = Absent | Given(value: T)
}
