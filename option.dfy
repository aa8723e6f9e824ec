/** A JavaScript value that may be `undefined` (or `null`) is modelled as an Option. */
module Options {

  datatype Option<+T> = None | Some(value: T)

}
