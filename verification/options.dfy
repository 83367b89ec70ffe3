/** The optional value used wherever the source has `undefined`, `-1` or "not found". */
module Options {

  datatype Option<+T> = None | Some(value: T)

}
