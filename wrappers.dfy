/** Optional values: the descriptor's `default` is either absent (Python `None`)
    or a piece of rendered text. */
module Wrappers {

  datatype Option<+T> = None | Some(value: T)
}
