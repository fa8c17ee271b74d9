/** The optional value used for nullable fields, absent JSON members and
    unset storage keys. */
module Optional {
  datatype Option<T> = None | Some(value: T)
}
