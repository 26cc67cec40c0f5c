/** The conventional optional value, used for broker replies that may fail. */
module Options {

  datatype Option<+T> = None | Some(value: T)
}
