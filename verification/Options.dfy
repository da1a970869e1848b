/** The conventional option type, used where the program holds None or a value. */
module Options {

  datatype Option<+T> = None | Some(value: T)
}
