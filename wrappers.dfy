/** Python's `None`-or-value, as the conventional Some/None datatype. */
module Wrappers {

  datatype Option<+T> = None | Some(value: T)
}
