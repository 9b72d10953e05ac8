/** The usual optional value: what the sources write as `T | null`. */
module Options {
  datatype Option<+T> = None | Some(value: T)
}
