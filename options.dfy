/** The optional value returned by the foreign primitives: `None` stands for
    the NULL pointer a C function returns on failure. */
module Options {
  datatype Option<+T> = None | Some(value: T)
}
