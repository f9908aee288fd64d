/** The usual optional value, used for request fields that may be absent and for
    the failure point of a collaborator call. */
module Optional {
  datatype Option<+T> = None | Some(value: T)
}
