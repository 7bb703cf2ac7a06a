/** An optional value, for the source's null pointers, unset soft references and unbound delegates. */
module Options {

  datatype Option<+T> = None | Some(value: T)
}
