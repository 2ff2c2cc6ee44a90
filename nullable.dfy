/** A Java reference that may be null: `None` is null, `Some(v)` refers to v. */
module Nullable {

  datatype Option<+T> = None | Some(value: T)
}
