/** What may be missing. */
module Wrappers {
  datatype Option<T> = None | Some(value: T)

  function Or<T>(o: Option<T>, default: T): T {
    if o.Some? then o.value else default
  }
}
