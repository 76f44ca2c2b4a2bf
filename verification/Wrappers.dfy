// Values that may be absent: a null pointer, Python's None, a result that is not a number.

module Wrappers {

  datatype Option<+A> = None | Some(value: A)
}
