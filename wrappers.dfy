/** The optional value used for query results that may be absent (an octree hit, a
    projectile target, a timer handle). */
module Wrappers {
  datatype Option<T> = None | Some(value: T)
}
