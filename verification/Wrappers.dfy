/** An optional value. */
module Wrappers {
  datatype Option<+T> = None | Some(value: T)
}

/** Writes to a remote store. */
module Writes {
  /** A write takes effect, is refused, or takes effect with its answer lost. */
  datatype Write = Applied | Rejected | Lost

  predicate Takes(w: Write) {
    w.Applied? || w.Lost?
  }
}
