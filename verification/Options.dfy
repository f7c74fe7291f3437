/** A nullable column or pointer: SQL NULL and Go nil are None. */
module Options {

  datatype Option<+T> = None | Some(value: T)
}
