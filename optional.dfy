/** An optional value: stands for a lookup that may come back empty and for
    a record field that the source leaves undefined. */
module Optional {
  datatype Option<T> = None | Some(value: T)
}
