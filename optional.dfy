/** The optional values that the configuration and the compose records carry. */
module Optional {

  datatype Option<+T> = None | Some(value: T)

  /** Rust's `Option::or`: the first value when present, otherwise the second. */
  function Or<T>(first: Option<T>, second: Option<T>): Option<T>
  {
    if first.Some? then first else second
  }
}
