/** Shared helper types. */
module Common {

  /** A value that may be absent: JavaScript's `null` / `undefined` for one field or slot. */
  datatype Option<+T> = None | Some(value: T)
}
