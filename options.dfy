/** The nullable values of the Kotlin source (`T?`), as an explicit option. */
module Options {
  datatype Option<+T> = None | Some(value: T)
}
