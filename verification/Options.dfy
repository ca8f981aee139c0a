/** A value that may be absent: Python's None, or a dictionary key that is not set. */
module Options {

  datatype Option<+T> = None | Some(value: T)

  /** The first value if it is present, otherwise the second. */
  function OrElse<T>(first: Option<T>, second: Option<T>): Option<T> {
    if first.Some? then first else second
  }

  function GetOr<T>(option: Option<T>, default: T): T {
    if option.Some? then option.value else default
  }
}
