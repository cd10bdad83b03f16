/** Optional values: a socket that may not exist yet, an action a listener may dispatch. */
module Wrappers {
  datatype Option<+T> = None | Some(value: T)
}
