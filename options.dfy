/** The optional value used for lookups that may find nothing and for
    list operations that may raise. */
module Options {
  datatype Option<+T> = None | Some(value: T)
}
