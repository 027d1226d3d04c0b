/** An optional value: the generator's options that default to Python's `None`. */
module Optional {

  datatype Option<+T> = None | Some(value: T)
}
