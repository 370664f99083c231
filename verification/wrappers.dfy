/** The optional values of the source: TypeScript's `T | null`, and the
    `undefined` that an array index past the end yields. */
module Wrappers {

  datatype Option<+T> = None | Some(value: T)

}
