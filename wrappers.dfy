/** Optional and nullable values, as JavaScript distinguishes `undefined` from `null`. */
module Wrappers {

  /** A value that may be absent (`undefined` in JavaScript). */
  datatype Option<+T> = None | Some(value: T)

  /** A value that may be the literal `null`. */
  datatype Nullable<+T> = Null | NonNull(value: T)
}
