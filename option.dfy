/** An optional value: an environment variable that may be unset, or a
    dict entry that may be missing. */
module Optional {

  datatype Option<+T> = None | Some(value: T)
}
