/** The usual optional value. */
module Options {
  datatype Option<+T> = None | Some(value: T)

  function OrEmpty(o: Option<string>): string {
    if o.Some? then o.value else ""
  }
}
