/** A nullable value: the camera's bounds are each either a number or null. */
module Options {
  datatype Option<+T> = None | Some(value: T)
}
