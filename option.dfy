/** A value that may be missing: a table miss, a closed file, an absent tape. */
module Optional {
  datatype Option<T> = None | Some(value: T)
}
