/** Optional values, standing in for a nullable pointer or a `std::optional`. */
module Wrappers {
  datatype Option<+T> = None | Some(value: T)
}
