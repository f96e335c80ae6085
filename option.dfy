/** An optional value: a lookup that may miss, a device pointer that may be null. */
module Optional {
  datatype Option<+T> = None | Some(value: T)
}
