/** An optional value: a raycast hit, or the followed target when one is assigned. */
module Options {
  datatype Option<T> = None | Some(value: T)
}
