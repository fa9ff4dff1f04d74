/** Optional values: a field the source may leave `null`/`undefined`, or a
    number that failed to parse (`NaN`). */
module Wrappers {

  datatype Option<+T> = None | Some(value: T)
}
