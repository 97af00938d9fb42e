// The one optional-value type every other module uses: a null or undefined on the original's side.
module Options {
  datatype Option<+T> = None | Some(value: T)
}
