/** A value that may be absent: TypeScript's `T | undefined` and `T | null`. */
module Optional {

  datatype Option<+T> = None | Some(value: T)
}
