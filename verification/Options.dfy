/** Replies of the stores. */
module Options {
  /** A value that may be absent: a nil reply, a missing row, a deadline that was never set. */
  datatype Option<+T> = None | Some(value: T)

  /** What a caller learns from a storage call. A call that failed may have taken effect. */
  datatype Reply<+T> = Answer(value: T) | NotFound | Fault
}
