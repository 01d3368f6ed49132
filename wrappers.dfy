/** Optional values: the model's counterpart of Python's `None`-or-value. */
module Wrappers {

  datatype Option<+T> = None | Some(value: T)
}
