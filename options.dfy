/** An optional value, used for `soloedSound` (a sound name or `null`) and for lookups that may miss. */
module Options {
  datatype Option<T> = None | Some(value: T)
}
