/** The optional value used wherever the TypeScript source has an optional
    property (`field?: T`) or a `T | null` result. */
module Optional {
  datatype Option<+T> = None | Some(value: T)
}
