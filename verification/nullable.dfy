/** A value that may be `null`, as in the TypeScript `T | null` fields. */
module Nullable {

  datatype Option<+T> = None | Some(value: T)
}
