/** Optional values: `None` stands for the Java `null` that the source returns
    from validators and lookups. */
module Wrappers {

  datatype Option<+T> = None | Some(value: T)
}
