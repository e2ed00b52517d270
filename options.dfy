/** Python's `None`-or-value, used for optional fields and for lookups that may find nothing. */
module Options {

  datatype Option<+T> = None | Some(value: T)
}
