/** Optional values: `None` stands for a Java `null` or for a constructor
    argument that was not passed at all. */
module Wrappers {

  datatype Option<+T> = None | Some(value: T)

}
