/** The optional value shared by the driver and the decoders. */
module Options {

  datatype Option<T> = None | Some(value: T)
}
