/** An absent or present value: the `null`/`undefined` results of the program. */
module Options {
  datatype Option<+T> = None | Some(value: T)

  /** `a ?? b`. */
  function OrElse<T>(a: Option<T>, b: Option<T>): Option<T> {
    if a.Some? then a else b
  }

  /** `a ?? b` for a value that is always there in the end. */
  function Or<T>(o: Option<T>, fallback: T): T {
    if o.Some? then o.value else fallback
  }
}
