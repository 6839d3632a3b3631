/** Optional values: `None` stands for a request that raised instead of answering. */
module Wrappers {

  datatype Option<+T> = None | Some(value: T)

}
