/** Small shared datatypes: optional values, the state of a file on disk,
    and the outcome of one iteration of a background loop. */
module Common {

  /** Python's `None` or a value. */
  datatype Option<+T> = None | Some(value: T)

  /** What reading a JSON file yields: it is absent, it does not parse,
      or it holds a value. */
  datatype FileState<+T> = Missing | Corrupt | Present(content: T)

  /** One iteration of a `while True` thread: either the loop goes on, or an
      uncaught exception ended the thread, freezing the state it had reached
      (the web handlers keep serving that state). */
  datatype Step<+S> = Running(state: S) | Halted(state: S)

  function Min(a: int, b: int): int
  {
    if a <= b then a else b
  }
}
