/** Optional values: Swift's `T?`, with `None` standing for `nil`. */
module Wrappers {

  datatype Option<+T> = None | Some(value: T)

}
