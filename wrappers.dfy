/** Optional values: the answer of an engine query that may find nothing
    (a ray that hits nothing, a nav-mesh sample that fails). */
module Wrappers {

  datatype Option<+T> = None | Some(value: T)
}
