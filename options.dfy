/** The optional value used for "nothing selected yet" and "no such event". */
module Options {
  datatype Option<+T> = None | Some(value: T)
}
