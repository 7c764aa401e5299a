/** Optional values and results with an error, standing in for Go's nil and `error` returns. */
module Wrappers {

  /** A value that may be absent (a nil interface or pointer in the source). */
  datatype Option<+T> = None | Some(value: T) {
    /** This value if present, otherwise `fallback`. */
    function Or(fallback: Option<T>): Option<T> {
      if Some? then this else fallback
    }
  }

  /** The outcome of a Go call returning `(T, error)`. */
  datatype Result<+T, +E> = Success(value: T) | Failure(error: E)
}

/** Opaque stand-ins for the Go interface values the controllers pass along untouched. */
module Handles {

  /** An `image.Image`; its pixels are not part of the model. */
  datatype Image = Image(id: nat)

  /** An `io.Reader` supplying bytes to a process's standard input. */
  datatype Reader = Reader(id: nat)

  /** An `io.Writer` receiving a process's standard output. */
  datatype Writer = Writer(id: nat)

  /**
   * A `context.Context` as seen by one decode: either it never fires
   * (`context.Background()`), or it is cancelled during the run and
   * `ctx.Err()` then reports `err`.
   */
  datatype Context = Background | Cancelled(err: string)
}
