/** The usual optional-value datatype, standing for a TypeScript `T | null`. */
module Wrappers {

  datatype Option<+T> = None | Some(value: T)
}
