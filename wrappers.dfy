/** Optional values, for fields a record may lack and for parses that may fail. */
module Wrappers {

  datatype Option<+T> = None | Some(value: T)
}
