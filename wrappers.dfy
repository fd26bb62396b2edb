/** Optional values, used for "no value yet" (an unbounded height) and "no template". */
module Wrappers {

  datatype Option<+T> = None | Some(value: T)

}
