/** The outcome of a computation that the source lets fail by raising. */
module Options {

  datatype Option<+T> = None | Some(value: T)
}
