/** The optional value used wherever the application keeps `null` or an
    absent property. */
module Options {

  datatype Option<+T> = None | Some(value: T)
}
