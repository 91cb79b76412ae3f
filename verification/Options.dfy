module Options {
  /** A value that may be missing, such as a pointer that may be null. */
  datatype Option<T> = None | Some(value: T)
}
