/** An owning pointer that may be null, as `std::unique_ptr` children are. */
module Wrappers {

  datatype Option<+T> = None | Some(value: T)
}
