/** Optional values, used for fields a reply or a parser may not produce. */
module Wrappers {

  datatype Option<+T> = None | Some(value: T)
}
