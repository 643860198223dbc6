/** A value that may be absent: JavaScript's `undefined` / `null` results. */
module Optional {

  datatype Option<+T> = None | Some(value: T)

}
