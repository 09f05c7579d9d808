/** An optional value: a `FILE*` that may be NULL, a lookup that may miss. */
module Maybe {
  datatype Option<T> = None | Some(value: T)
}
