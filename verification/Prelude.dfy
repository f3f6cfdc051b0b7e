/** The helper datatype every other module uses. */
module Prelude {

  /** A value that may be absent: the source's `undefined`. */
  datatype Option<+T> = None | Some(value: T)

  /** The source's `first ?? second`. */
  function Coalesce<T>(first: Option<T>, second: Option<T>): (r: Option<T>) {
    if first.Some? then first else second
  }
}
