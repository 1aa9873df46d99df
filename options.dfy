/** A value that may be missing: JavaScript's `null`/`undefined` where the program tests for them. */
module Options {

  datatype Option<+T> = None | Some(value: T)
}
