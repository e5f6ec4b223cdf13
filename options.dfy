/** The optional value used for Java's `Optional` and for absent fields. */
module Options {

  datatype Option<+T> = None | Some(value: T)
}
