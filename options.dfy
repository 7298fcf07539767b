/** An optional value, for JavaScript's `undefined` / absent cases. */
module Options {
  datatype Option<+T> = None | Some(value: T)
}
