/** Optional values, used for C# `null` and for the `int.MaxValue` sentinel. */
module Wrappers {

  datatype Option<+T> = None | Some(value: T)

}
