/** The optional-value wrapper used for Python's `Optional[...]` fields and for
    operations that may find nothing. */
module Options {

  datatype Option<+T> = None | Some(value: T)

}
