/** An optional value: a field the source declares with `?` or a reference that may be `null`. */
module Options {

  datatype Option<+T> = None | Some(value: T)
}
