/** The optional value used for Python's `None`-or-value slots: a field's
    description, and the result of looking a key up in a dict. */
module Options {

  datatype Option<+T> = None | Some(value: T)

}
