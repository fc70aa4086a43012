/** Values shared by the queue, the futures and the fixed-function pool. */
module Common {

  /** A value that may be absent: Go's nil pointer, nil func or nil error. */
  datatype Option<+T> = None | Some(value: T)

  /** The `(interface{}, error)` pair a task or a chained function returns.
      `err == None` is Go's `err == nil`. */
  datatype Outcome<+V, +E> = Outcome(value: V, err: Option<E>) {
    predicate Succeeded() { err.None? }
  }
}
