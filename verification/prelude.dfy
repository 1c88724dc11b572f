// A value that may be absent, as the source's None.
module Prelude {

  datatype Option<+T> = None | Some(value: T)
}
